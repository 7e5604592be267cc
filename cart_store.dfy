/**
 * The cart store of src/store/cartStore.ts: a Zustand store holding the cart
 * lines (in insertion order, keyed by id) and the `isCartPanelOpen` flag.
 *
 * Every action is a callback `state => partial state` handed to Zustand's
 * `set`, which merges the partial state into the current one: a field the
 * callback does not return keeps its old value. The model keeps that shape:
 * each action yields a `Patch`, and `Merge` applies it. Prices are integers
 * (cents).
 */
module CartStore {
  import opened Wrappers
  import opened SeqUtil
  import opened MenuTypes

  /** A cart line: the menu item as added (`{...item}`) together with its quantity. */
  datatype CartItem<Id> = CartItem(item: MenuItem<Id>, quantity: int)

  /** The data part of the store; `partialize` persists exactly these two fields. */
  datatype CartState<Id> = CartState(items: seq<CartItem<Id>>, isCartPanelOpen: bool)

  /** The partial state an action returns to `set`: `None` is a field left out of the returned object. */
  datatype Patch<Id> = Patch(items: Option<seq<CartItem<Id>>>, isCartPanelOpen: Option<bool>)

  /** `items: []`, `isCartPanelOpen: false` */
  function Initial<Id>(): CartState<Id> {
    CartState([], false)
  }

  /** Zustand's shallow merge of a partial state into the current state. */
  function Merge<Id>(s: CartState<Id>, p: Patch<Id>): (r: CartState<Id>)
    ensures p.items.Some? ==> r.items == p.items.value
    ensures p.items.None? ==> r.items == s.items
    ensures p.isCartPanelOpen.Some? ==> r.isCartPanelOpen == p.isCartPanelOpen.value
    ensures p.isCartPanelOpen.None? ==> r.isCartPanelOpen == s.isCartPanelOpen
  {
    CartState(p.items.GetOr(s.items), p.isCartPanelOpen.GetOr(s.isCartPanelOpen))
  }

  // ---------------------------------------------------------------- invariant

  predicate HasId<Id(==)>(items: seq<CartItem<Id>>, id: Id) {
    exists k :: 0 <= k < |items| && items[k].item.id == id
  }

  predicate UniqueIds<Id(==)>(items: seq<CartItem<Id>>) {
    forall i, j :: 0 <= i < j < |items| ==> items[i].item.id != items[j].item.id
  }

  /** No two lines share an id, and every quantity is at least 1. */
  predicate Valid<Id(==)>(s: CartState<Id>) {
    && UniqueIds(s.items)
    && forall k :: 0 <= k < |s.items| ==> s.items[k].quantity >= 1
  }

  // ---------------------------------------------------------------- line helpers

  /** `items.find(i => i.id === id)`, as the index of the first matching line. */
  function Find<Id(==)>(items: seq<CartItem<Id>>, id: Id): (r: Option<nat>)
    ensures r.Some? <==> HasId(items, id)
    ensures r.Some? ==> r.value < |items| && items[r.value].item.id == id
    ensures r.Some? ==> forall j :: 0 <= j < r.value ==> items[j].item.id != id
  {
    if items == [] then None
    else if items[0].item.id == id then Some(0)
    else match Find(items[1..], id)
      case Some(j) =>
        assert items[j + 1] == items[1..][j];
        Some(j + 1)
      case None =>
        assert forall k :: 1 <= k < |items| ==> items[k] == items[1..][k - 1];
        None
  }

  /** `items.map(i => i.id === id ? {...i, quantity: i.quantity + 1} : i)` */
  function Bump<Id(==)>(items: seq<CartItem<Id>>, id: Id): seq<CartItem<Id>> {
    seq(|items|, k requires 0 <= k < |items| =>
      if items[k].item.id == id then items[k].(quantity := items[k].quantity + 1) else items[k])
  }

  /** `items.map(i => i.id === id ? {...i, quantity: Math.max(0, i.quantity - 1)} : i)` */
  function Lower<Id(==)>(items: seq<CartItem<Id>>, id: Id): seq<CartItem<Id>> {
    seq(|items|, k requires 0 <= k < |items| =>
      if items[k].item.id == id then items[k].(quantity := MaxZero(items[k].quantity - 1)) else items[k])
  }

  function MaxZero(x: int): int {
    if x < 0 then 0 else x
  }

  /** The predicate `item => item.id !== id` of `removeItem`. */
  function OtherThan<Id(==)>(id: Id): CartItem<Id> -> bool {
    (line: CartItem<Id>) => line.item.id != id
  }

  /** The predicate `item => item.quantity > 0` of `decrementQuantity`. */
  function InStock<Id>(line: CartItem<Id>): bool {
    line.quantity > 0
  }

  function Quantity<Id>(line: CartItem<Id>): int {
    line.quantity
  }

  function Subtotal<Id>(line: CartItem<Id>): int {
    line.item.price * line.quantity
  }

  /** `getTotalItems`: the sum of the quantities. */
  function TotalItems<Id>(items: seq<CartItem<Id>>): int {
    Sum(items, Quantity)
  }

  /** `getTotalPrice`: the sum of price times quantity. */
  function TotalPrice<Id>(items: seq<CartItem<Id>>): int {
    Sum(items, Subtotal)
  }

  /** The item count is 0 for no lines, and at least one per line when every quantity is. */
  lemma TotalItemsBound<Id>(items: seq<CartItem<Id>>)
    ensures items == [] ==> TotalItems(items) == 0
    ensures (forall k :: 0 <= k < |items| ==> items[k].quantity >= 1) ==> TotalItems(items) >= |items|
  {
    SumAtLeast(items, Quantity, 1);
  }

  /** The price total is 0 for no lines, and never negative for non-negative prices and quantities. */
  lemma TotalPriceBound<Id>(items: seq<CartItem<Id>>)
    ensures items == [] ==> TotalPrice(items) == 0
    ensures (forall k :: 0 <= k < |items| ==> items[k].item.price >= 0 && items[k].quantity >= 0) ==>
      TotalPrice(items) >= 0
  {
    if forall k :: 0 <= k < |items| ==> items[k].item.price >= 0 && items[k].quantity >= 0 {
      forall k | 0 <= k < |items|
        ensures Subtotal(items[k]) >= 0
      {
        assert items[k].item.price >= 0 && items[k].quantity >= 0;
      }
    }
    SumAtLeast(items, Subtotal, 0);
  }

  // ---------------------------------------------------------------- the actions' callbacks

  function AddItemUpdate<Id(==)>(s: CartState<Id>, itemToAdd: MenuItem<Id>): Patch<Id> {
    var wasCartEmpty := |s.items| == 0;
    if Find(s.items, itemToAdd.id).Some? then
      Patch(Some(Bump(s.items, itemToAdd.id)), None)
    else
      Patch(Some(s.items + [CartItem(itemToAdd, 1)]), Some(if wasCartEmpty then true else s.isCartPanelOpen))
  }

  function RemoveItemUpdate<Id(==)>(s: CartState<Id>, itemId: Id): Patch<Id> {
    Patch(Some(Filter(s.items, OtherThan(itemId))),
          Some(if |Filter(s.items, OtherThan(itemId))| > 0 then s.isCartPanelOpen else false))
  }

  function IncrementUpdate<Id(==)>(s: CartState<Id>, itemId: Id): Patch<Id> {
    Patch(Some(Bump(s.items, itemId)), None)
  }

  function DecrementUpdate<Id(==)>(s: CartState<Id>, itemId: Id): Patch<Id> {
    Patch(Some(Filter(Lower(s.items, itemId), InStock)), None)
  }

  function ClearUpdate<Id>(): Patch<Id> {
    Patch(Some([]), Some(false))
  }

  function ToggleUpdate<Id>(s: CartState<Id>): Patch<Id> {
    Patch(None, Some(!s.isCartPanelOpen))
  }

  // ---------------------------------------------------------------- transitions of the whole state

  /**
   * `addItem`: an id already present gets its quantity raised by one and the
   * panel flag is not returned, so it stays; a new id is appended with
   * quantity 1 and the panel opens if the cart was empty.
   */
  function AddItemStep<Id(==)>(s: CartState<Id>, itemToAdd: MenuItem<Id>): (r: CartState<Id>)
    ensures HasId(s.items, itemToAdd.id) ==>
      && |r.items| == |s.items|
      && r.isCartPanelOpen == s.isCartPanelOpen
      && (forall k :: 0 <= k < |s.items| && s.items[k].item.id != itemToAdd.id ==> r.items[k] == s.items[k])
      && (forall k :: 0 <= k < |s.items| && s.items[k].item.id == itemToAdd.id ==>
            r.items[k] == s.items[k].(quantity := s.items[k].quantity + 1))
    ensures !HasId(s.items, itemToAdd.id) ==>
      && r.items == s.items + [CartItem(itemToAdd, 1)]
      && r.isCartPanelOpen == (s.items == [] || s.isCartPanelOpen)
  {
    Merge(s, AddItemUpdate(s, itemToAdd))
  }

  /**
   * `removeItem`: every line with that id goes, the rest keep their order; the
   * panel is forced closed when nothing is left and otherwise keeps its value.
   * On a cart with distinct ids, which every reachable cart has
   * (`CartLaws.ReachableValid`), these clauses fix the result exactly
   * (`CartLaws.RemoveItemPresent`, `CartLaws.RemoveItemAbsent`).
   */
  function RemoveItemStep<Id(==)>(s: CartState<Id>, itemId: Id): (r: CartState<Id>)
    ensures IsSubsequence(r.items, s.items)
    ensures forall k :: 0 <= k < |r.items| ==> r.items[k].item.id != itemId
    ensures forall k :: 0 <= k < |s.items| && s.items[k].item.id != itemId ==> s.items[k] in r.items
    ensures r.items == [] ==> !r.isCartPanelOpen
    ensures r.items != [] ==> r.isCartPanelOpen == s.isCartPanelOpen
  {
    FilterIsSubsequence(s.items, OtherThan(itemId));
    FilterMembers(s.items, OtherThan(itemId));
    Merge(s, RemoveItemUpdate(s, itemId))
  }

  /** `incrementQuantity`: lines with that id gain one; the panel flag is not returned. */
  function IncrementStep<Id(==)>(s: CartState<Id>, itemId: Id): (r: CartState<Id>)
    ensures |r.items| == |s.items| && r.isCartPanelOpen == s.isCartPanelOpen
    ensures forall k :: 0 <= k < |s.items| && s.items[k].item.id != itemId ==> r.items[k] == s.items[k]
    ensures forall k :: 0 <= k < |s.items| && s.items[k].item.id == itemId ==>
      r.items[k] == s.items[k].(quantity := s.items[k].quantity + 1)
    ensures !HasId(s.items, itemId) ==> r == s
  {
    var r := Merge(s, IncrementUpdate(s, itemId));
    assert !HasId(s.items, itemId) ==> r.items == s.items;
    r
  }

  /**
   * `decrementQuantity`: lines with that id lose one (never below 0), then
   * every line whose quantity is not positive is dropped; the panel flag is
   * not returned, so it stays even when the cart empties. On a cart with
   * distinct ids, which every reachable cart has (`CartLaws.ReachableValid`),
   * these clauses fix the result exactly (`CartLaws.DecrementPresent`,
   * `CartLaws.DecrementAbsent`).
   */
  function DecrementStep<Id(==)>(s: CartState<Id>, itemId: Id): (r: CartState<Id>)
    ensures r.isCartPanelOpen == s.isCartPanelOpen
    ensures IsSubsequence(r.items, Lower(s.items, itemId))
    ensures forall k :: 0 <= k < |r.items| ==> r.items[k].quantity > 0
    ensures forall k :: 0 <= k < |Lower(s.items, itemId)| && Lower(s.items, itemId)[k].quantity > 0 ==>
      Lower(s.items, itemId)[k] in r.items
  {
    FilterIsSubsequence(Lower(s.items, itemId), InStock);
    FilterMembers(Lower(s.items, itemId), InStock);
    Merge(s, DecrementUpdate(s, itemId))
  }

  /** `clearCart` */
  function ClearStep<Id>(s: CartState<Id>): (r: CartState<Id>)
    ensures r.items == [] && !r.isCartPanelOpen
  {
    Merge(s, ClearUpdate())
  }

  /** `toggleCartPanel` */
  function ToggleStep<Id>(s: CartState<Id>): (r: CartState<Id>)
    ensures r.items == s.items
    ensures r.isCartPanelOpen != s.isCartPanelOpen
  {
    Merge(s, ToggleUpdate(s))
  }

  // ---------------------------------------------------------------- the store object

  /** The store: the two data fields, replaced through `Set`. */
  class Store<Id(==)> {
    var items: seq<CartItem<Id>>
    var isCartPanelOpen: bool

    function State(): CartState<Id>
      reads this
    {
      CartState(items, isCartPanelOpen)
    }

    constructor ()
      ensures State() == Initial()
    {
      items := [];
      isCartPanelOpen := false;
    }

    /** Zustand's `set`: the fields present in the patch are replaced, the others are kept. */
    method Set(p: Patch<Id>)
      modifies this
      ensures State() == Merge(old(State()), p)
    {
      if p.items.Some? {
        items := p.items.value;
      }
      if p.isCartPanelOpen.Some? {
        isCartPanelOpen := p.isCartPanelOpen.value;
      }
    }

    method AddItem(itemToAdd: MenuItem<Id>)
      modifies this
      ensures State() == AddItemStep(old(State()), itemToAdd)
    {
      Set(AddItemUpdate(State(), itemToAdd));
    }

    method RemoveItem(itemId: Id)
      modifies this
      ensures State() == RemoveItemStep(old(State()), itemId)
    {
      Set(RemoveItemUpdate(State(), itemId));
    }

    method IncrementQuantity(itemId: Id)
      modifies this
      ensures State() == IncrementStep(old(State()), itemId)
    {
      Set(IncrementUpdate(State(), itemId));
    }

    method DecrementQuantity(itemId: Id)
      modifies this
      ensures State() == DecrementStep(old(State()), itemId)
    {
      Set(DecrementUpdate(State(), itemId));
    }

    method ClearCart()
      modifies this
      ensures State() == ClearStep(old(State()))
    {
      Set(ClearUpdate());
    }

    method ToggleCartPanel()
      modifies this
      ensures State() == ToggleStep(old(State()))
    {
      Set(ToggleUpdate(State()));
    }

    /** The store's `getTotalItems`: 0 exactly when a valid cart has no lines. */
    function GetTotalItems(): (r: int)
      reads this
      ensures r == TotalItems(items)
      ensures Valid(State()) ==> (r == 0 <==> items == [])
    {
      TotalItemsBound(items);
      TotalItems(items)
    }

    /** The store's `getTotalPrice`. */
    function GetTotalPrice(): (r: int)
      reads this
      ensures r == TotalPrice(items)
      ensures (forall k :: 0 <= k < |items| ==> items[k].item.price >= 0) && Valid(State()) ==> r >= 0
    {
      TotalPriceBound(items);
      TotalPrice(items)
    }
  }
}
