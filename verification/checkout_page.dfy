/** The cash-on-delivery checkout, `src/app/checkout/page.tsx`: save the order
    as "Pending", then record its id, empty the cart and go to the thank-you
    page. */
module CheckoutPage {
  import opened Js
  import Cart
  import opened Checkout

  /** A line of this page's order: the list price, even for a product on
      sale, so it differs from the payment checkout's line exactly when the
      sale price in effect differs from the list price. */
  function PlainLine(item: Cart.CartItem): (l: OrderItem)
    ensures l.PlainItem? && l.price == item.product.price && l.quantity == item.quantity
    ensures l.price == GatewayLine(item).price <==> Cart.UnitPrice(item.product) == item.product.price
  {
    PlainItem(item.product.id, item.product.title, item.product.price, item.quantity)
  }

  /** The record this page writes: list prices on the lines, the cart total
      (sale prices) as `totalPrice`, and no payment status. */
  function PlainOrder(cart: seq<Cart.CartItem>, form: CheckoutForm): (o: Order)
    ensures |o.items| == |cart|
    ensures forall i :: 0 <= i < |cart| ==> o.items[i] == PlainLine(cart[i])
    ensures o.totalPrice == Cart.TotalPrice(cart)
    ensures o.status == Pending && o.paymentStatus.None? && o.form == form
  {
    Order(form, seq(|cart|, i requires 0 <= i < |cart| => PlainLine(cart[i])), Cart.TotalPrice(cart), Pending, None)
  }

  predicate NoSales(cart: seq<Cart.CartItem>)
  {
    forall i :: 0 <= i < |cart| ==> Cart.UnitPrice(cart[i].product) == cart[i].product.price
  }

  /** When no line is on sale the stored lines add up to the stored total. */
  lemma {:induction false} PlainOrderAddsUpWithoutSales(cart: seq<Cart.CartItem>, form: CheckoutForm)
    requires NoSales(cart)
    ensures ItemsTotal(PlainOrder(cart, form).items) == PlainOrder(cart, form).totalPrice
    decreases |cart|
  {
    if |cart| > 0 {
      PlainOrderAddsUpWithoutSales(cart[1..], form);
      assert PlainOrder(cart, form).items[1..] == PlainOrder(cart[1..], form).items;
    }
  }

  /** With a sale the stored lines and the stored total disagree: one shirt
      listed at 1000 and sold at 800 is stored as a line of 1000 in an order
      whose total is 800. */
  lemma SaleLineDisagreesWithTotal(form: CheckoutForm)
    ensures var cart := [Cart.CartItem(Cart.Product("p1", "Shirt", 1000, Some(800)), 1, None, "p1-NOSIZE")];
      && ItemsTotal(PlainOrder(cart, form).items) == 1000
      && PlainOrder(cart, form).totalPrice == 800
  {
    var cart := [Cart.CartItem(Cart.Product("p1", "Shirt", 1000, Some(800)), 1, None, "p1-NOSIZE")];
    assert Cart.TotalPrice(cart[1..]) == 0;
    assert PlainOrder(cart, form).items[1..] == [];
  }

  /** The page: the empty-cart notice, or the form with an order summary of
      list price times quantity per line and the cart total. */
  datatype View = EmptyCartNotice | CheckoutFormView(lineAmounts: seq<int>, total: int)

  function Render(cart: seq<Cart.CartItem>): (v: View)
    ensures v.EmptyCartNotice? <==> |cart| == 0
    ensures v.CheckoutFormView? ==> |v.lineAmounts| == |cart| && v.total == Cart.TotalPrice(cart)
  {
    if |cart| == 0 then EmptyCartNotice
    else CheckoutFormView(seq(|cart|, i requires 0 <= i < |cart| => cart[i].product.price * cart[i].quantity), Cart.TotalPrice(cart))
  }

  /** The summary's line amounts are the stored order's line amounts. */
  lemma SummaryShowsStoredLines(cart: seq<Cart.CartItem>, form: CheckoutForm)
    requires |cart| > 0
    ensures forall i :: 0 <= i < |cart| ==>
              Render(cart).lineAmounts[i] == PlainOrder(cart, form).items[i].price * PlainOrder(cart, form).items[i].quantity
  {
  }

  /** The state a submission leaves behind. */
  datatype PageSubmission = PageSubmission(
    order: Order, orderIdAtom: Option<string>, cart: seq<Cart.CartItem>,
    navigateTo: Option<string>, alert: Option<string>)

  const SaveAlert := "An error occurred while placing your order. Please try again."

  /** `onSubmit`: on a saved order with an id, set the order-id atom, clear
      the cart and go to "/thank-you"; on a rejected save, alert and keep
      everything. */
  function Submit(cart: seq<Cart.CartItem>, form: CheckoutForm, atom: Option<string>, save: SaveOutcome): (s: PageSubmission)
    ensures s.order == PlainOrder(cart, form)
    ensures save.Saved? && save.id != "" ==>
              s.orderIdAtom == Some(save.id) && s.cart == [] && s.navigateTo == Some("/thank-you") && s.alert.None?
    ensures !(save.Saved? && save.id != "") ==>
              s.orderIdAtom == atom && s.cart == cart && s.navigateTo.None?
    ensures s.alert.Some? <==> save.SaveFailed?
    ensures s.alert.Some? ==> s.alert.value == SaveAlert
  {
    var order := PlainOrder(cart, form);
    match save
    case SaveFailed => PageSubmission(order, atom, cart, None, Some(SaveAlert))
    case Saved(id) =>
      if id == "" then PageSubmission(order, atom, cart, None, None)
      else PageSubmission(order, Some(id), Cart.ClearCart(), Some("/thank-you"), None)
  }
}
