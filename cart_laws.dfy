/**
 * What the cart store's actions guarantee: the invariant (unique ids, every
 * quantity at least 1) holds in every reachable state, the exact effect of
 * each action on a valid cart, the effect on the two totals, and the
 * panel-flag rules, which differ between `removeItem` and `decrementQuantity`.
 */
module CartLaws {
  import opened Wrappers
  import opened SeqUtil
  import opened MenuTypes
  import opened CartStore

  // ---------------------------------------------------------------- single-line views of the map steps

  /** With unique ids, the increment map touches exactly the line at `k`. */
  lemma BumpAt<Id>(items: seq<CartItem<Id>>, id: Id, k: nat)
    requires UniqueIds(items) && k < |items| && items[k].item.id == id
    ensures Bump(items, id) == items[k := items[k].(quantity := items[k].quantity + 1)]
  {
    var b := Bump(items, id);
    forall j | 0 <= j < |items|
      ensures b[j] == items[k := items[k].(quantity := items[k].quantity + 1)][j]
    {
      if j < k {
        assert items[j].item.id != items[k].item.id;
      } else if j > k {
        assert items[k].item.id != items[j].item.id;
      }
    }
  }

  /** With unique ids, the decrement map touches exactly the line at `k`. */
  lemma LowerAt<Id>(items: seq<CartItem<Id>>, id: Id, k: nat)
    requires UniqueIds(items) && k < |items| && items[k].item.id == id
    ensures Lower(items, id) == items[k := items[k].(quantity := MaxZero(items[k].quantity - 1))]
  {
    var b := Lower(items, id);
    forall j | 0 <= j < |items|
      ensures b[j] == items[k := items[k].(quantity := MaxZero(items[k].quantity - 1))][j]
    {
      if j < k {
        assert items[j].item.id != items[k].item.id;
      } else if j > k {
        assert items[k].item.id != items[j].item.id;
      }
    }
  }

  lemma UniqueWithout<Id>(items: seq<CartItem<Id>>, k: nat)
    requires UniqueIds(items) && k < |items|
    ensures UniqueIds(items[..k] + items[k + 1..])
  {
    var r := items[..k] + items[k + 1..];
    forall i, j | 0 <= i < j < |r|
      ensures r[i].item.id != r[j].item.id
    {
      var i' := if i < k then i else i + 1;
      var j' := if j < k then j else j + 1;
      assert r[i] == items[i'] && r[j] == items[j'];
    }
  }

  lemma Distribute(price: int, quantity: int, delta: int)
    ensures price * (quantity + delta) == price * quantity + price * delta
  {
  }

  lemma SumReplaced<Id>(items: seq<CartItem<Id>>, k: nat, line: CartItem<Id>, f: CartItem<Id> -> int)
    requires k < |items|
    ensures Sum(items[k := line], f) == Sum(items, f) - f(items[k]) + f(line)
  {
    var t := items[k := line];
    SumAround(items, k, f);
    SumAround(t, k, f);
    assert t[..k] == items[..k];
    assert t[k + 1..] == items[k + 1..];
  }

  lemma SumWithout<Id>(items: seq<CartItem<Id>>, k: nat, f: CartItem<Id> -> int)
    requires k < |items|
    ensures Sum(items[..k] + items[k + 1..], f) == Sum(items, f) - f(items[k])
  {
    SumAround(items, k, f);
    SumAppend(items[..k], items[k + 1..], f);
  }

  // ---------------------------------------------------------------- addItem

  /** An id already in a valid cart: only that line's quantity goes up by one, the panel flag stays. */
  lemma AddItemExisting<Id>(s: CartState<Id>, itemToAdd: MenuItem<Id>, k: nat)
    requires Valid(s) && Find(s.items, itemToAdd.id) == Some(k)
    ensures AddItemStep(s, itemToAdd)
      == CartState(s.items[k := s.items[k].(quantity := s.items[k].quantity + 1)], s.isCartPanelOpen)
  {
    BumpAt(s.items, itemToAdd.id, k);
  }

  /** `getTotalItems` after `addItem` on a valid cart is the old total plus one. */
  lemma AddItemTotals<Id>(s: CartState<Id>, itemToAdd: MenuItem<Id>)
    requires Valid(s)
    ensures TotalItems(AddItemStep(s, itemToAdd).items) == TotalItems(s.items) + 1
    ensures Find(s.items, itemToAdd.id).Some? ==>
      TotalPrice(AddItemStep(s, itemToAdd).items)
        == TotalPrice(s.items) + s.items[Find(s.items, itemToAdd.id).value].item.price
    ensures Find(s.items, itemToAdd.id).None? ==>
      TotalPrice(AddItemStep(s, itemToAdd).items) == TotalPrice(s.items) + itemToAdd.price
  {
    var found := Find(s.items, itemToAdd.id);
    if found.Some? {
      var k := found.value;
      var line := s.items[k].(quantity := s.items[k].quantity + 1);
      AddItemExisting(s, itemToAdd, k);
      assert AddItemStep(s, itemToAdd).items == s.items[k := line];
      SumReplaced(s.items, k, line, Quantity);
      SumReplaced(s.items, k, line, Subtotal);
      Distribute(s.items[k].item.price, s.items[k].quantity, 1);
    } else {
      var line := CartItem(itemToAdd, 1);
      assert AddItemStep(s, itemToAdd).items == s.items + [line];
      SumAppend(s.items, [line], Quantity);
      SumAppend(s.items, [line], Subtotal);
      assert [line][..0] == [];
    }
  }

  /** Adding the same item twice to an empty cart: one line of quantity 2, panel open. */
  lemma AddSameItemTwice<Id>(itemToAdd: MenuItem<Id>)
    ensures AddItemStep(AddItemStep(Initial(), itemToAdd), itemToAdd)
      == CartState([CartItem(itemToAdd, 2)], true)
  {
    var once := AddItemStep(Initial(), itemToAdd);
    assert once == CartState([CartItem(itemToAdd, 1)], true);
    assert Find(once.items, itemToAdd.id) == Some(0);
    AddItemExisting(once, itemToAdd, 0);
    assert once.items[0 := CartItem(itemToAdd, 2)] == [CartItem(itemToAdd, 2)];
  }

  /** Adding each of `xs` in turn. */
  function AddAll<Id(==)>(s: CartState<Id>, xs: seq<MenuItem<Id>>): (r: CartState<Id>)
    ensures Valid(s) ==> Valid(r)
    decreases |xs|
  {
    if xs == [] then s
    else if Valid(s) then
      AddItemValid(s, xs[0]);
      AddAll(AddItemStep(s, xs[0]), xs[1..])
    else AddAll(AddItemStep(s, xs[0]), xs[1..])
  }

  /** `getTotalItems` after any sequence of `addItem` calls grows by the number of calls. */
  lemma {:induction false} AddAllTotal<Id>(s: CartState<Id>, xs: seq<MenuItem<Id>>)
    requires Valid(s)
    ensures TotalItems(AddAll(s, xs).items) == TotalItems(s.items) + |xs|
    decreases |xs|
  {
    if xs != [] {
      AddItemTotals(s, xs[0]);
      AddItemValid(s, xs[0]);
      AddAllTotal(AddItemStep(s, xs[0]), xs[1..]);
    }
  }

  // ---------------------------------------------------------------- removeItem

  /** Removing a present id from a valid cart deletes exactly its line. */
  lemma RemoveItemPresent<Id>(s: CartState<Id>, itemId: Id, k: nat)
    requires Valid(s) && Find(s.items, itemId) == Some(k)
    ensures RemoveItemStep(s, itemId).items == s.items[..k] + s.items[k + 1..]
  {
    var keep := OtherThan(itemId);
    var head, tail := s.items[..k], s.items[k + 1..];
    assert s.items == head + [s.items[k]] + tail;
    forall j | 0 <= j < |tail|
      ensures keep(tail[j])
    {
      assert tail[j] == s.items[k + 1 + j];
      assert s.items[k].item.id != s.items[k + 1 + j].item.id;
    }
    FilterAround(head, s.items[k], tail, keep);
  }

  /** Removing an absent id leaves the lines as they are. */
  lemma RemoveItemAbsent<Id>(s: CartState<Id>, itemId: Id)
    requires !HasId(s.items, itemId)
    ensures RemoveItemStep(s, itemId).items == s.items
  {
    FilterKeepsAll(s.items, OtherThan(itemId));
  }

  /** `removeItem` lowers the totals by the removed line's quantity and subtotal. */
  lemma RemoveItemTotals<Id>(s: CartState<Id>, itemId: Id, k: nat)
    requires Valid(s) && Find(s.items, itemId) == Some(k)
    ensures TotalItems(RemoveItemStep(s, itemId).items) == TotalItems(s.items) - s.items[k].quantity
    ensures TotalPrice(RemoveItemStep(s, itemId).items)
      == TotalPrice(s.items) - s.items[k].item.price * s.items[k].quantity
  {
    RemoveItemPresent(s, itemId, k);
    SumWithout(s.items, k, Quantity);
    SumWithout(s.items, k, Subtotal);
  }

  // ---------------------------------------------------------------- incrementQuantity

  /** On a present id of a valid cart only that line gains one. */
  lemma IncrementPresent<Id>(s: CartState<Id>, itemId: Id, k: nat)
    requires Valid(s) && Find(s.items, itemId) == Some(k)
    ensures IncrementStep(s, itemId)
      == CartState(s.items[k := s.items[k].(quantity := s.items[k].quantity + 1)], s.isCartPanelOpen)
  {
    BumpAt(s.items, itemId, k);
  }

  /** `incrementQuantity` on a present id raises the totals by one line's worth. */
  lemma IncrementTotals<Id>(s: CartState<Id>, itemId: Id, k: nat)
    requires Valid(s) && Find(s.items, itemId) == Some(k)
    ensures TotalItems(IncrementStep(s, itemId).items) == TotalItems(s.items) + 1
    ensures TotalPrice(IncrementStep(s, itemId).items) == TotalPrice(s.items) + s.items[k].item.price
  {
    var line := s.items[k].(quantity := s.items[k].quantity + 1);
    IncrementPresent(s, itemId, k);
    assert IncrementStep(s, itemId).items == s.items[k := line];
    SumReplaced(s.items, k, line, Quantity);
    SumReplaced(s.items, k, line, Subtotal);
    Distribute(s.items[k].item.price, s.items[k].quantity, 1);
  }

  // ---------------------------------------------------------------- decrementQuantity

  /**
   * On a present id of a valid cart: a line of quantity 1 is deleted, a larger
   * quantity goes down by one; the panel flag is kept in both cases.
   */
  lemma DecrementPresent<Id>(s: CartState<Id>, itemId: Id, k: nat)
    requires Valid(s) && Find(s.items, itemId) == Some(k)
    ensures s.items[k].quantity == 1 ==>
      DecrementStep(s, itemId) == CartState(s.items[..k] + s.items[k + 1..], s.isCartPanelOpen)
    ensures s.items[k].quantity > 1 ==>
      DecrementStep(s, itemId)
        == CartState(s.items[k := s.items[k].(quantity := s.items[k].quantity - 1)], s.isCartPanelOpen)
  {
    var line := s.items[k].(quantity := s.items[k].quantity - 1);
    LowerAt(s.items, itemId, k);
    var head, tail := s.items[..k], s.items[k + 1..];
    assert Lower(s.items, itemId) == head + [line] + tail;
    forall j | 0 <= j < |tail|
      ensures InStock(tail[j])
    {
      assert tail[j] == s.items[k + 1 + j];
    }
    FilterAround(head, line, tail, InStock);
    if s.items[k].quantity > 1 {
      assert head + [line] + tail == s.items[k := line];
    }
  }

  /** `decrementQuantity` on a present id lowers the totals by one line's worth. */
  lemma DecrementTotals<Id>(s: CartState<Id>, itemId: Id, k: nat)
    requires Valid(s) && Find(s.items, itemId) == Some(k)
    ensures TotalItems(DecrementStep(s, itemId).items) == TotalItems(s.items) - 1
    ensures TotalPrice(DecrementStep(s, itemId).items) == TotalPrice(s.items) - s.items[k].item.price
  {
    DecrementPresent(s, itemId, k);
    var line := s.items[k].(quantity := s.items[k].quantity - 1);
    if s.items[k].quantity == 1 {
      SumWithout(s.items, k, Quantity);
      SumWithout(s.items, k, Subtotal);
    } else {
      SumReplaced(s.items, k, line, Quantity);
      SumReplaced(s.items, k, line, Subtotal);
      Distribute(s.items[k].item.price, s.items[k].quantity, -1);
    }
  }

  /** On an absent id of a valid cart nothing changes. */
  lemma DecrementAbsent<Id>(s: CartState<Id>, itemId: Id)
    requires Valid(s) && !HasId(s.items, itemId)
    ensures DecrementStep(s, itemId) == s
  {
    assert Lower(s.items, itemId) == s.items;
    FilterKeepsAll(s.items, InStock);
  }

  /**
   * The last line of quantity 1: `removeItem` empties the cart and closes the
   * panel, `decrementQuantity` empties the cart and leaves the panel open.
   */
  lemma RemoveClosesDecrementDoesNot<Id>(line: CartItem<Id>)
    requires line.quantity == 1
    ensures RemoveItemStep(CartState([line], true), line.item.id) == CartState([], false)
    ensures DecrementStep(CartState([line], true), line.item.id) == CartState([], true)
  {
    DecrementPresent(CartState([line], true), line.item.id, 0);
  }

  // ---------------------------------------------------------------- clearCart and toggleCartPanel

  /** `toggleCartPanel` twice is the identity. */
  lemma ToggleTwice<Id>(s: CartState<Id>)
    ensures ToggleStep(ToggleStep(s)) == s
  {
  }

  // ---------------------------------------------------------------- the invariant

  lemma AddItemValid<Id>(s: CartState<Id>, itemToAdd: MenuItem<Id>)
    requires Valid(s)
    ensures Valid(AddItemStep(s, itemToAdd))
  {
    match Find(s.items, itemToAdd.id)
    case Some(k) =>
      AddItemExisting(s, itemToAdd, k);
    case None =>
  }

  lemma RemoveItemValid<Id>(s: CartState<Id>, itemId: Id)
    requires Valid(s)
    ensures Valid(RemoveItemStep(s, itemId))
  {
    match Find(s.items, itemId)
    case Some(k) =>
      RemoveItemPresent(s, itemId, k);
      UniqueWithout(s.items, k);
    case None =>
      RemoveItemAbsent(s, itemId);
  }

  lemma DecrementValid<Id>(s: CartState<Id>, itemId: Id)
    requires Valid(s)
    ensures Valid(DecrementStep(s, itemId))
  {
    match Find(s.items, itemId)
    case Some(k) =>
      DecrementPresent(s, itemId, k);
      UniqueWithout(s.items, k);
    case None =>
      DecrementAbsent(s, itemId);
  }

  /** The store's actions, as a user triggers them. */
  datatype Action<Id> =
    | AddItem(itemToAdd: MenuItem<Id>)
    | RemoveItem(itemId: Id)
    | IncrementQuantity(itemId: Id)
    | DecrementQuantity(itemId: Id)
    | ClearCart
    | ToggleCartPanel

  function Step<Id(==)>(s: CartState<Id>, a: Action<Id>): (r: CartState<Id>)
    ensures Valid(s) ==> Valid(r)
  {
    match a
    case AddItem(x) =>
      if Valid(s) then AddItemValid(s, x); AddItemStep(s, x) else AddItemStep(s, x)
    case RemoveItem(id) =>
      if Valid(s) then RemoveItemValid(s, id); RemoveItemStep(s, id) else RemoveItemStep(s, id)
    case IncrementQuantity(id) =>
      if Valid(s) && Find(s.items, id).Some? then
        IncrementPresent(s, id, Find(s.items, id).value); IncrementStep(s, id)
      else IncrementStep(s, id)
    case DecrementQuantity(id) =>
      if Valid(s) then DecrementValid(s, id); DecrementStep(s, id) else DecrementStep(s, id)
    case ClearCart => ClearStep(s)
    case ToggleCartPanel => ToggleStep(s)
  }

  /** The state after the actions `acts`, in order. */
  function Run<Id(==)>(s: CartState<Id>, acts: seq<Action<Id>>): CartState<Id>
    decreases |acts|
  {
    if acts == [] then s else Run(Step(s, acts[0]), acts[1..])
  }

  /** Every state reachable from the initial store satisfies the invariant. */
  lemma {:induction false} RunValid<Id>(s: CartState<Id>, acts: seq<Action<Id>>)
    requires Valid(s)
    ensures Valid(Run(s, acts))
    decreases |acts|
  {
    if acts != [] {
      RunValid(Step(s, acts[0]), acts[1..]);
    }
  }

  lemma ReachableValid<Id>(acts: seq<Action<Id>>)
    ensures Valid(Run(Initial(), acts))
  {
    RunValid(Initial(), acts);
  }
}
