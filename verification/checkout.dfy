/** The payment checkout, `src/components/checkout/index.tsx`: save the order
    as "Pending" / "Awaiting Payment", then ask the initiate route for a
    gateway page and send the browser there. */
module Checkout {
  import opened Js
  import opened Strings
  import opened Http
  import Cart
  import InitiateRoute
  import Gateway

  /** The form fields; the order record spreads all of them. */
  datatype CheckoutForm = CheckoutForm(fullName: string, email: string, phone: string, address: string, paymentMethod: string)

  /** An order line: with the payment checkout a line carries its cart key,
      size and effective price; the cash-on-delivery page stores only the
      list price. */
  datatype OrderItem =
    | GatewayItem(id: string, itemId: string, title: string, price: int, selectedSize: Option<int>, quantity: int)
    | PlainItem(id: string, title: string, price: int, quantity: int)

  /** The Firestore order record; the server timestamp `orderDate` is left
      out. `paymentStatus` is absent from the cash-on-delivery record. */
  datatype Order = Order(form: CheckoutForm, items: seq<OrderItem>, totalPrice: int, status: string, paymentStatus: Option<string>)

  const Pending := "Pending"
  const AwaitingPayment := "Awaiting Payment"

  /** The sum of price times quantity over the order's lines. */
  function ItemsTotal(items: seq<OrderItem>): int
    decreases |items|
  {
    if |items| == 0 then 0 else items[0].price * items[0].quantity + ItemsTotal(items[1..])
  }

  function GatewayLine(item: Cart.CartItem): OrderItem
  {
    GatewayItem(item.product.id, item.itemId, item.product.title, Cart.UnitPrice(item.product), item.selectedSize, item.quantity)
  }

  /** The record `saveOrderToFirestore` writes. */
  function GatewayOrder(cart: seq<Cart.CartItem>, form: CheckoutForm): (o: Order)
    ensures |o.items| == |cart|
    ensures forall i :: 0 <= i < |cart| ==> o.items[i] == GatewayLine(cart[i])
    ensures o.totalPrice == Cart.TotalPrice(cart)
    ensures o.status == Pending && o.paymentStatus == Some(AwaitingPayment) && o.form == form
  {
    Order(form, seq(|cart|, i requires 0 <= i < |cart| => GatewayLine(cart[i])), Cart.TotalPrice(cart), Pending, Some(AwaitingPayment))
  }

  /** The lines of a payment-checkout order add up to its total: both price
      a line at the sale price when there is one. */
  lemma {:induction false} GatewayOrderAddsUp(cart: seq<Cart.CartItem>, form: CheckoutForm)
    ensures ItemsTotal(GatewayOrder(cart, form).items) == GatewayOrder(cart, form).totalPrice
    decreases |cart|
  {
    if |cart| > 0 {
      GatewayOrderAddsUp(cart[1..], form);
      assert GatewayOrder(cart, form).items[1..] == GatewayOrder(cart[1..], form).items;
    }
  }

  /** The page: the empty-cart notice, or the payment form whose summary
      shows the cart total. */
  datatype PaymentView = CartEmptyNotice | PaymentForm(total: int)

  function RenderPayment(cart: seq<Cart.CartItem>): (v: PaymentView)
    ensures v.CartEmptyNotice? <==> |cart| == 0
    ensures v.PaymentForm? ==> v.total == Cart.TotalPrice(cart)
  {
    if |cart| == 0 then CartEmptyNotice else PaymentForm(Cart.TotalPrice(cart))
  }

  /** The JSON the checkout posts to the initiate route. */
  datatype PaymentRequest = PaymentRequest(
    amount: int, customerName: string, customerEmail: string, orderId: string,
    paymentStatus: string, successUrl: string, failUrl: string)

  /** The request for a saved order: the cart total, the form's name and
      e-mail, and the saved order's id. */
  function RequestFor(cart: seq<Cart.CartItem>, form: CheckoutForm, orderId: string, origin: string): (q: PaymentRequest)
    ensures q.amount == Cart.TotalPrice(cart) && q.amount == GatewayOrder(cart, form).totalPrice
    ensures q.customerName == form.fullName && q.customerEmail == form.email && q.orderId == orderId
  {
    PaymentRequest(Cart.TotalPrice(cart), form.fullName, form.email, orderId, "pending",
                   origin + "/payment-success", origin + "/checkout")
  }

  /** `addDoc`: the new document's id, or a rejection. */
  datatype SaveOutcome = Saved(id: string) | SaveFailed

  /** What `fetch` gives the browser: a response with its `ok` flag, status
      text and JSON body (None when the body is not JSON), or a rejection. */
  datatype ClientReply = Reply(ok: bool, statusText: string, json: Option<map<string, string>>) | NetworkError

  /** The one visible outcome of a submission. */
  datatype Effect = GoToGateway(url: string) | Toast(message: string) | Quiet

  datatype Submission = Submission(order: Order, request: Option<PaymentRequest>, effect: Effect)

  const SaveFailedToast := "Failed to save order. Please try again."
  const UnexpectedToast := "An unexpected error occurred during payment."
  const InitiationFailedPrefix := "Payment initiation failed: "

  /** `handlePaymentRedirect` after the request has been sent. */
  function HandleReply(reply: ClientReply): (e: Effect)
    ensures e.GoToGateway? <==> reply.Reply? && reply.ok && reply.json.Some?
                                && Field(reply.json.value, "status") == Some("success")
                                && Truthy(Field(reply.json.value, "GatewayPageURL"))
    ensures e.GoToGateway? ==> e.url != "" && e.url == reply.json.value["GatewayPageURL"]
    ensures !e.Quiet?
  {
    match reply
    case NetworkError => Toast(UnexpectedToast)
    case Reply(ok, statusText, json) =>
      if !ok then
        Toast(InitiationFailedPrefix + (if json.None? then "Server error" else OrElse(Field(json.value, "message"), statusText)))
      else if json.None? then Toast(UnexpectedToast)
      else if Field(json.value, "status") == Some("success") && Truthy(Field(json.value, "GatewayPageURL")) then
        GoToGateway(json.value["GatewayPageURL"])
      else Toast(InitiationFailedPrefix + OrElse(Field(json.value, "message"), "Unknown error"))
  }

  /** `onSubmit`: save, then (only with an id) request a payment session. */
  function Submit(cart: seq<Cart.CartItem>, form: CheckoutForm, origin: string, save: SaveOutcome, reply: ClientReply): (s: Submission)
    ensures s.order == GatewayOrder(cart, form)
    ensures s.request.Some? <==> save.Saved? && save.id != ""
    ensures s.request.Some? ==> s.request.value == RequestFor(cart, form, save.id, origin)
  {
    var order := GatewayOrder(cart, form);
    match save
    case SaveFailed => Submission(order, None, Toast(SaveFailedToast))
    case Saved(id) =>
      if id == "" then Submission(order, None, Quiet)
      else Submission(order, Some(RequestFor(cart, form, id, origin)), HandleReply(reply))
  }

  /** Without a saved order there is no payment request and no redirect,
      whatever the initiate route would have answered; a rejected save shows
      the save-failure toast. */
  lemma NoPaymentWithoutOrder(cart: seq<Cart.CartItem>, form: CheckoutForm, origin: string, save: SaveOutcome, reply: ClientReply)
    requires !(save.Saved? && save.id != "")
    ensures Submit(cart, form, origin, save, reply).request.None?
    ensures !Submit(cart, form, origin, save, reply).effect.GoToGateway?
    ensures forall other :: Submit(cart, form, origin, save, other) == Submit(cart, form, origin, save, reply)
    ensures save.SaveFailed? ==> Submit(cart, form, origin, save, reply).effect == Toast(SaveFailedToast)
  {
  }

  /** Every toast is the save failure, the unexpected-error text, or starts
      with "Payment initiation failed: ". */
  lemma ToastsAreKnown(cart: seq<Cart.CartItem>, form: CheckoutForm, origin: string, save: SaveOutcome, reply: ClientReply)
    ensures var e := Submit(cart, form, origin, save, reply).effect;
      e.Toast? ==> e.message == SaveFailedToast || e.message == UnexpectedToast || StartsWith(e.message, InitiationFailedPrefix)
  {
  }

  /** The body the initiate route reads out of the checkout's request. */
  function AsInitiateRequest(p: PaymentRequest): (r: InitiateRoute.InitiateRequest)
    ensures r.orderId == Some(p.orderId)
    ensures InitiateRoute.RequiredPresent(r) <==> p.amount != 0 && p.customerName != "" && p.customerEmail != ""
  {
    InitiateRoute.InitiateRequest(Some(p.amount), Some(p.customerName), Some(p.customerEmail), Some(p.orderId))
  }

  /** The JSON fields of a route reply as the browser reads them. */
  function BodyFields(b: JsonBody): map<string, string>
  {
    match b
    case Message(m) => map["message" := m]
    case MessageWithError(m, e) => map["message" := m, "error" := e]
    case MessageWithDetails(m, _) => map["message" := m]
    case GatewayPage(u) => map["GatewayPageURL" := u, "status" := "success"]
  }

  /** The reply the browser sees for a response of the initiate route: the
      framework's 500 page is not JSON. */
  function AsClientReply(resp: Response, statusText: string): ClientReply
    requires !resp.Redirect?
  {
    match resp
    case Json(status, body) => Reply(200 <= status < 300, statusText, Some(BodyFields(body)))
    case UncaughtError => Reply(false, statusText, None)
  }

  /** Checkout and initiate route together: once the order is saved, the
      browser goes to the gateway exactly when the route opened a session and
      the gateway answered SUCCESS with a page URL, and then to that URL.
      A zero cart total never reaches the gateway. */
  lemma CheckoutThroughInitiate(env: Gateway.Env, cart: seq<Cart.CartItem>, form: CheckoutForm, origin: string,
                                id: string, now: nat, g: InitiateRoute.GatewayReply, statusText: string)
    requires id != ""
    ensures var req := RequestFor(cart, form, id, origin);
      var out := InitiateRoute.Post(env, InitiateRoute.JsonBody(AsInitiateRequest(req)), now, g);
      var e := Submit(cart, form, origin, Saved(id), AsClientReply(out.response, statusText)).effect;
      && (e.GoToGateway? <==> out.session.Some? && g.Answered?
                              && Field(g.fields, "status") == Some("SUCCESS") && Truthy(Field(g.fields, "GatewayPageURL")))
      && (e.GoToGateway? ==> g.Answered? && e.url == g.fields["GatewayPageURL"])
      && (Cart.TotalPrice(cart) == 0 && Gateway.CredentialsPresent(env) ==>
            e == Toast(InitiationFailedPrefix + "Missing required fields"))
  {
    var req := RequestFor(cart, form, id, origin);
    var body := InitiateRoute.JsonBody(AsInitiateRequest(req));
    var out := InitiateRoute.Post(env, body, now, g);
    if out.session.Some? {
      InitiateRoute.ReplyClassifies(env, body, now, g);
    }
  }
}
