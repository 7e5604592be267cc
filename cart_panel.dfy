/**
 * The cart panel of src/components/Cart.tsx: its local state
 * (`userHasClosedCart`, `isOrdering`, `orderMessage`, `orderError`), the
 * checkout handler, the effect that runs when the item count becomes 0, and
 * the choice of what is rendered.
 *
 * The remote write of the order document is an input: `WriteOutcome` is what
 * the awaited `addDoc` call produced.
 */
module CartPanel {
  import opened Wrappers
  import opened JsValues
  import opened SeqUtil
  import opened MenuTypes
  import opened CartStore
  import CartLaws

  // ---------------------------------------------------------------- the order payload

  /** One `orderData.items` entry: `{id, name, quantity, price, imageUrl: item.imageUrl || null}`. */
  datatype OrderLine<Id> = OrderLine(id: Id, name: string, quantity: int, price: int, imageUrl: Option<string>)

  /** The written document, without the server-assigned `createdAt`. */
  datatype OrderData<Id> = OrderData(items: seq<OrderLine<Id>>, totalPrice: int, totalItems: int, status: string)

  /** What the awaited write produced: the new document's id, or the value it threw. */
  datatype WriteOutcome = Written(docId: string) | Rejected(err: Thrown)

  const EmptyCartError: string := "Your cart is empty!"
  const PendingStatus: string := "pending"

  const SuccessPrefix: string := "Order placed successfully! Order ID: "
  const FailurePrefix: string := "Failed to place order. Please try again. Details: "

  /** The success text: never empty, so always displayed; `SuccessPrefix` followed by the new document's id. */
  function SuccessMessage(docId: string): (m: string)
    ensures Truthy(m)
    ensures |m| == |SuccessPrefix| + |docId|
    ensures m[..|SuccessPrefix|] == SuccessPrefix && m[|SuccessPrefix|..] == docId
  {
    SuccessPrefix + docId
  }

  /**
   * The failure text: never empty; `FailurePrefix` followed by the thrown
   * `Error`'s message, or by the fixed fallback for any other thrown value.
   */
  function FailureMessage(err: Thrown): (m: string)
    ensures Truthy(m)
    ensures |FailurePrefix| <= |m| && m[..|FailurePrefix|] == FailurePrefix
    ensures err.ErrorObject? ==> |m| == |FailurePrefix| + |err.message| && m[|FailurePrefix|..] == err.message
    ensures err.NonError? ==> m[|FailurePrefix|..] == "An unknown error occurred"
  {
    FailurePrefix + MessageOf(err, "An unknown error occurred")
  }

  function ToOrderLine<Id>(line: CartItem<Id>): OrderLine<Id> {
    OrderLine(line.item.id, line.item.name, line.quantity, line.item.price,
              if TruthyOpt(line.item.imageUrl) then line.item.imageUrl else None)
  }

  /**
   * `orderData`: the cart lines one to one and in order, the two totals as
   * the store computes them, and the status "pending".
   */
  function BuildOrder<Id>(items: seq<CartItem<Id>>): (o: OrderData<Id>)
    ensures |o.items| == |items|
    ensures forall k :: 0 <= k < |items| ==>
      && o.items[k].id == items[k].item.id
      && o.items[k].name == items[k].item.name
      && o.items[k].quantity == items[k].quantity
      && o.items[k].price == items[k].item.price
      && (o.items[k].imageUrl.Some? <==> TruthyOpt(items[k].item.imageUrl))
      && (o.items[k].imageUrl.Some? ==> o.items[k].imageUrl == items[k].item.imageUrl)
    ensures o.totalPrice == TotalPrice(items) && o.totalItems == TotalItems(items)
    ensures o.status == PendingStatus
  {
    OrderData(seq(|items|, k requires 0 <= k < |items| => ToOrderLine(items[k])),
              TotalPrice(items), TotalItems(items), PendingStatus)
  }

  function OrderQuantity<Id>(line: OrderLine<Id>): int {
    line.quantity
  }

  function OrderAmount<Id>(line: OrderLine<Id>): int {
    line.price * line.quantity
  }

  lemma {:induction false} SumOverLines<Id>(items: seq<CartItem<Id>>, lines: seq<OrderLine<Id>>)
    requires |lines| == |items|
    requires forall k :: 0 <= k < |items| ==> lines[k] == ToOrderLine(items[k])
    ensures Sum(lines, OrderQuantity) == TotalItems(items)
    ensures Sum(lines, OrderAmount) == TotalPrice(items)
    decreases |items|
  {
    if items != [] {
      var n := |items| - 1;
      SumOverLines(items[..n], lines[..n]);
    }
  }

  /** The payload's totals agree with its own lines. */
  lemma OrderTotalsMatchLines<Id>(items: seq<CartItem<Id>>)
    ensures BuildOrder(items).totalItems == Sum(BuildOrder(items).items, OrderQuantity)
    ensures BuildOrder(items).totalPrice == Sum(BuildOrder(items).items, OrderAmount)
  {
    SumOverLines(items, BuildOrder(items).items);
  }

  // ---------------------------------------------------------------- what is rendered

  /** `isPanelVisible` */
  function IsPanelVisible(itemCount: int, userHasClosedCart: bool): bool {
    itemCount > 0 && !userHasClosedCart
  }

  /** The footer: subtotal and the checkout button (disabled flag and caption). */
  datatype Footer = Footer(subtotal: int, checkoutDisabled: bool, caption: string)

  /**
   * Either the small reopen button with the item-count badge, or the panel,
   * slid in or out, with the "Your cart is empty." notice, the order
   * messages and the footer as they are shown.
   */
  datatype CartView =
    | ReopenButton(badge: int)
    | Sheet(slidIn: bool, emptyNotice: bool, message: Option<string>, error: Option<string>, footer: Option<Footer>)

  function Shown(s: Option<string>): Option<string> {
    if TruthyOpt(s) then s else None
  }

  function Render<Id>(items: seq<CartItem<Id>>, userHasClosedCart: bool, isOrdering: bool,
                      orderMessage: Option<string>, orderError: Option<string>): (v: CartView)
    ensures v.ReopenButton? <==> TotalItems(items) > 0 && userHasClosedCart
    ensures v.ReopenButton? ==> v.badge == TotalItems(items)
    ensures v.Sheet? ==> (v.slidIn <==> TotalItems(items) > 0 && !userHasClosedCart)
    ensures v.Sheet? ==> (v.footer.Some? <==> items != [])
    ensures v.Sheet? && v.footer.Some? ==>
      && v.footer.value.subtotal == TotalPrice(items)
      && (v.footer.value.checkoutDisabled <==> isOrdering)
      && v.footer.value.caption == (if isOrdering then "Placing Order..." else "Checkout")
    ensures v.Sheet? ==> (v.message.Some? <==> TruthyOpt(orderMessage)) && (v.message.Some? ==> v.message == orderMessage)
    ensures v.Sheet? ==> (v.error.Some? <==> TruthyOpt(orderError)) && (v.error.Some? ==> v.error == orderError)
    ensures v.Sheet? ==>
      (v.emptyNotice <==> items == [] && v.slidIn && !TruthyOpt(orderMessage) && !TruthyOpt(orderError))
  {
    var itemCount := TotalItems(items);
    var visible := IsPanelVisible(itemCount, userHasClosedCart);
    if itemCount > 0 && userHasClosedCart then ReopenButton(itemCount)
    else
      Sheet(visible,
            |items| == 0 && visible && !TruthyOpt(orderMessage) && !TruthyOpt(orderError),
            Shown(orderMessage), Shown(orderError),
            if |items| > 0 then
              Some(Footer(TotalPrice(items), isOrdering || |items| == 0,
                          if isOrdering then "Placing Order..." else "Checkout"))
            else None)
  }

  /** The "Your cart is empty." notice is never shown: an empty cart has item count 0, which hides the panel. */
  lemma EmptyNoticeNeverShown<Id>(items: seq<CartItem<Id>>, userHasClosedCart: bool, isOrdering: bool,
                                  orderMessage: Option<string>, orderError: Option<string>)
    ensures var v := Render(items, userHasClosedCart, isOrdering, orderMessage, orderError);
      v.Sheet? ==> !v.emptyNotice
  {
    if items == [] {
      assert TotalItems(items) == 0;
    }
  }

  /** On a valid cart the panel is visible exactly when the cart has lines and the user has not closed it. */
  lemma VisibleIffLinesAndNotClosed<Id>(s: CartState<Id>, userHasClosedCart: bool)
    requires Valid(s)
    ensures IsPanelVisible(TotalItems(s.items), userHasClosedCart) <==> s.items != [] && !userHasClosedCart
  {
    TotalItemsBound(s.items);
  }

  // ---------------------------------------------------------------- the component's state

  class Panel<Id(==)> {
    const store: Store<Id>
    var userHasClosedCart: bool
    var isOrdering: bool
    var orderMessage: Option<string>
    var orderError: Option<string>

    constructor (store: Store<Id>)
      ensures this.store == store
      ensures !userHasClosedCart && !isOrdering && orderMessage == None && orderError == None
    {
      this.store := store;
      userHasClosedCart := false;
      isOrdering := false;
      orderMessage := None;
      orderError := None;
    }

    function View(): CartView
      reads this, store
    {
      Render(store.items, userHasClosedCart, isOrdering, orderMessage, orderError)
    }

    /** The "Close cart" button. */
    method CloseCart()
      modifies this
      ensures userHasClosedCart
      ensures isOrdering == old(isOrdering) && orderMessage == old(orderMessage) && orderError == old(orderError)
    {
      userHasClosedCart := true;
    }

    /** The "Open cart" button. */
    method ReopenCart()
      modifies this
      ensures !userHasClosedCart
      ensures isOrdering == old(isOrdering) && orderMessage == old(orderMessage) && orderError == old(orderError)
    {
      userHasClosedCart := false;
    }

    /**
     * The effect on `[itemCount]`, run whenever the item count has changed:
     * at count 0 the closed flag is reset and both messages are cleared.
     */
    method ItemCountEffect()
      modifies this
      ensures old(store.GetTotalItems()) == 0 ==>
        !userHasClosedCart && orderMessage == None && orderError == None
      ensures old(store.GetTotalItems()) != 0 ==>
        userHasClosedCart == old(userHasClosedCart)
        && orderMessage == old(orderMessage) && orderError == old(orderError)
      ensures isOrdering == old(isOrdering)
    {
      if store.GetTotalItems() == 0 {
        userHasClosedCart := false;
        orderMessage := None;
        orderError := None;
      }
    }

    /**
     * `handleCheckout` up to the `await`: an empty cart only sets the error;
     * otherwise the flags are set and the payload to write is returned.
     */
    method BeginCheckout() returns (order: Option<OrderData<Id>>)
      modifies this
      ensures userHasClosedCart == old(userHasClosedCart)
      ensures store.items == [] ==>
        && order == None
        && orderError == Some(EmptyCartError)
        && isOrdering == old(isOrdering) && orderMessage == old(orderMessage)
      ensures store.items != [] ==>
        && order == Some(BuildOrder(store.items))
        && isOrdering && orderMessage == None && orderError == None
    {
      if |store.items| == 0 {
        orderError := Some(EmptyCartError);
        return None;
      }
      isOrdering := true;
      orderMessage := None;
      orderError := None;
      order := Some(BuildOrder(store.items));
    }

    /** `handleCheckout` after the `await`: the success or failure branch, then `finally`. */
    method FinishCheckout(outcome: WriteOutcome)
      modifies this, store
      ensures !isOrdering && userHasClosedCart == old(userHasClosedCart)
      ensures outcome.Written? ==>
        && orderMessage == Some(SuccessMessage(outcome.docId)) && orderError == old(orderError)
        && store.State() == ClearStep(old(store.State()))
      ensures outcome.Rejected? ==>
        && orderError == Some(FailureMessage(outcome.err)) && orderMessage == old(orderMessage)
        && store.State() == old(store.State())
    {
      match outcome {
        case Written(docId) =>
          orderMessage := Some(SuccessMessage(docId));
          store.ClearCart();
        case Rejected(err) =>
          orderError := Some(FailureMessage(err));
      }
      isOrdering := false;
    }

    /** The whole `handleCheckout`: no write for an empty cart; otherwise one write and its outcome. */
    method HandleCheckout(outcome: WriteOutcome) returns (written: Option<OrderData<Id>>)
      modifies this, store
      ensures userHasClosedCart == old(userHasClosedCart)
      ensures old(store.items) == [] ==>
        && written == None
        && orderError == Some(EmptyCartError) && orderMessage == old(orderMessage)
        && isOrdering == old(isOrdering) && store.State() == old(store.State())
      ensures old(store.items) != [] ==> written == Some(BuildOrder(old(store.items))) && !isOrdering
      ensures old(store.items) != [] && outcome.Written? ==>
        && orderMessage == Some(SuccessMessage(outcome.docId)) && orderError == None
        && store.State() == CartState([], false)
      ensures old(store.items) != [] && outcome.Rejected? ==>
        && orderError == Some(FailureMessage(outcome.err)) && orderMessage == None
        && store.State() == old(store.State())
    {
      written := BeginCheckout();
      if written.Some? {
        FinishCheckout(outcome);
      }
    }
  }

  // ---------------------------------------------------------------- checkout, end to end

  /**
   * A cart of two burgers at 10 and one fries at 5: the written order totals
   * 25 over 3 items; after the write succeeds the cart is empty and closed,
   * and the effect that follows the count dropping to 0 removes the success
   * message again.
   */
  method CheckoutSucceeds(docId: string) returns (written: Option<OrderData<string>>, after: CartState<string>,
                                                  shownMessage: Option<string>)
    ensures written.Some? && written.value.totalPrice == 25 && written.value.totalItems == 3
    ensures |written.value.items| == 2 && written.value.items[0].id == "1" && written.value.items[1].id == "2"
    ensures after == CartState([], false)
    ensures shownMessage == None
  {
    var store := new Store<string>();
    var burger := MenuItem("1", "Burger", "", 10, Some("burger.jpg"));
    var fries := MenuItem("2", "Fries", "", 5, Some("fries.jpg"));
    store.AddItem(burger);
    store.AddItem(burger);
    store.AddItem(fries);
    assert store.items == [CartItem(burger, 2), CartItem(fries, 1)] by {
      assert Find([CartItem(burger, 1)], "1") == Some(0);
      CartLaws.AddItemExisting(CartState([CartItem(burger, 1)], true), burger, 0);
      assert Find([CartItem(burger, 2)], "2") == None;
    }
    var panel := new Panel(store);
    written := panel.HandleCheckout(Written(docId));
    after := store.State();
    panel.ItemCountEffect();
    shownMessage := panel.orderMessage;
  }

  /** A fresh store after one `addItem`. */
  method StoreWith(x: MenuItem<string>) returns (store: Store<string>)
    ensures fresh(store) && store.State() == CartState([CartItem(x, 1)], true)
  {
    store := new Store<string>();
    store.AddItem(x);
  }

  /** The failure text for an `Error("Firebase write failed")`. */
  lemma FailureMessageOfError()
    ensures FailureMessage(ErrorObject("Firebase write failed"))
      == "Failed to place order. Please try again. Details: Firebase write failed"
  {
    assert FailureMessage(ErrorObject("Firebase write failed")) == FailurePrefix + "Firebase write failed";
  }

  /** The failure text for a thrown value that is not an `Error`. */
  lemma FailureMessageOfNonError()
    ensures FailureMessage(NonError)
      == "Failed to place order. Please try again. Details: An unknown error occurred"
  {
    assert FailureMessage(NonError) == FailurePrefix + "An unknown error occurred";
  }

  /** One line of quantity 1, panel not closed, idle, with an error: the panel shows the error and an enabled button. */
  lemma RenderWithError<Id>(line: CartItem<Id>, error: string)
    requires line.quantity == 1 && error != ""
    ensures Render([line], false, false, None, Some(error))
      == Sheet(true, false, None, Some(error), Some(Footer(line.item.price, false, "Checkout")))
  {
    SumSingle(line, Quantity);
    SumSingle(line, Subtotal);
  }

  /**
   * A rejected write keeps the cart, shows the failure with the error's
   * message, and leaves the checkout button enabled.
   */
  method CheckoutFails() returns (before: CartState<string>, after: CartState<string>, view: CartView)
    ensures after == before && before.items != []
    ensures view.Sheet? && view.slidIn
    ensures view.error == Some("Failed to place order. Please try again. Details: Firebase write failed")
    ensures view.footer.Some? && !view.footer.value.checkoutDisabled && view.footer.value.caption == "Checkout"
  {
    var burger := MenuItem("1", "Burger", "", 10, Some("burger.jpg"));
    var store := StoreWith(burger);
    before := store.State();
    var panel := new Panel(store);
    var err := ErrorObject("Firebase write failed");
    var written := panel.HandleCheckout(Rejected(err));
    after := store.State();
    FailureMessageOfError();
    RenderWithError(CartItem(burger, 1), FailureMessage(err));
    view := panel.View();
  }
}
