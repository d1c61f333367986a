/** Opening a payment session, `src/app/api/payment/initiate/route.js`: the
    checkout posts JSON, the route posts a session request to the SSLCommerz
    sandbox and relays the gateway page URL. */
module InitiateRoute {
  import opened Js
  import opened Http
  import opened Strings
  import opened Gateway

  /** The fields the route reads from the JSON body. The checkout sends the
      amount as a number (whole BDT here); `order_id` is sent but never read. */
  datatype InitiateRequest = InitiateRequest(
    amount: Option<int>,
    customerName: Option<string>,
    customerEmail: Option<string>,
    orderId: Option<string>)

  /** The body as `request.json()` yields it: an object (a JSON number,
      string or array also lands here, with every field missing), the JSON
      value `null`, or a rejection because the text is not JSON. */
  datatype RequestBody = JsonBody(request: InitiateRequest) | JsonNull | NotJson

  /** `!amount` for a number: missing and 0 are falsy. */
  predicate AmountTruthy(a: Option<int>)
  {
    a.Some? && a.value != 0
  }

  predicate RequiredPresent(r: InitiateRequest)
  {
    AmountTruthy(r.amount) && Truthy(r.customerName) && Truthy(r.customerEmail)
  }

  /** The session request sent to the gateway. `valueA` is the pass-through
      field the gateway echoes back on every callback. */
  datatype Payload = Payload(
    storeId: string,
    storePasswd: string,
    totalAmount: int,
    currency: string,
    tranId: string,
    successUrl: string,
    failUrl: string,
    cancelUrl: string,
    ipnUrl: string,
    customerName: string,
    customerEmail: string,
    valueA: Option<string>,
    fixedFields: seq<(string, string)>)

  /** Placeholder customer and product fields sent with every session. */
  const FixedFields: seq<(string, string)> := [
    ("cus_add1", "Dhaka"), ("cus_city", "Dhaka"), ("cus_state", "Dhaka"),
    ("cus_postcode", "1000"), ("cus_country", "Bangladesh"), ("cus_phone", "01711111111"),
    ("shipping_method", "NO"), ("product_name", "Test Product"),
    ("product_category", "Electronic"), ("product_profile", "general")]

  /** The gateway's answer: a JSON object, or a thrown error. */
  datatype GatewayReply = Answered(fields: map<string, string>) | Unreachable(message: string)

  datatype Initiated = Initiated(response: Response, session: Option<Payload>)

  /** `'TRN_' + Date.now()` */
  function TranId(nowMillis: nat): string
  {
    "TRN_" + NatToDecimal(nowMillis)
  }

  function BaseUrl(env: Env): string
  {
    OrElse(env.baseUrl, "http://localhost:3000")
  }

  /** The session request for a request that passed the checks: the
      posted non-zero amount and non-empty customer, in BDT, with no
      pass-through field. */
  function SessionPayload(env: Env, r: InitiateRequest, nowMillis: nat): (p: Payload)
    requires CredentialsPresent(env) && RequiredPresent(r)
    ensures p.totalAmount == r.amount.value && p.totalAmount != 0
    ensures p.customerName == r.customerName.value && p.customerName != ""
    ensures p.customerEmail == r.customerEmail.value && p.customerEmail != ""
    ensures p.currency == "BDT" && p.valueA.None?
  {
    var base := BaseUrl(env);
    Payload(env.storeId.value, env.storePasswd.value, r.amount.value, "BDT", TranId(nowMillis),
            base + "/api/payment/success", base + "/api/payment/fail", base + "/checkout",
            base + "/api/payment/ipn", r.customerName.value, r.customerEmail.value, None, FixedFields)
  }

  function Post(env: Env, body: RequestBody, nowMillis: nat, reply: GatewayReply): (out: Initiated)
    ensures !out.response.Redirect?
    ensures out.response.UncaughtError? <==> CredentialsPresent(env) && body.JsonNull?
    ensures out.session.Some? <==> CredentialsPresent(env) && body.JsonBody? && RequiredPresent(body.request)
  {
    if !CredentialsPresent(env) then
      Initiated(Json(500, Message("Server configuration error")), None)
    else match body
      case NotJson => Initiated(Json(400, Message("Invalid request body")), None)
        // Destructuring `null` throws outside the try that guards the parse.
      case JsonNull => Initiated(UncaughtError, None)
      case JsonBody(r) =>
        if !RequiredPresent(r) then Initiated(Json(400, Message("Missing required fields")), None)
        else
          var payload := SessionPayload(env, r, nowMillis);
          match reply
          case Unreachable(message) =>
            Initiated(Json(500, MessageWithError("Failed to initiate payment", message)), Some(payload))
          case Answered(fields) =>
            if Field(fields, "status") == Some("SUCCESS") && Truthy(Field(fields, "GatewayPageURL")) then
              Initiated(Json(200, GatewayPage(fields["GatewayPageURL"])), Some(payload))
            else
              Initiated(Json(400, MessageWithDetails("Payment initiation failed", fields)), Some(payload))
  }

  /** Missing credentials are reported before the body is looked at. */
  lemma ConfigErrorFirst(env: Env, b1: RequestBody, b2: RequestBody, now: nat, g1: GatewayReply, g2: GatewayReply)
    requires !CredentialsPresent(env)
    ensures Post(env, b1, now, g1) == Post(env, b2, now, g2) == Initiated(Json(500, Message("Server configuration error")), None)
  {
  }

  /** A body that is not JSON, or one whose amount, customer name or customer
      email is falsy, is refused with 400 and no session request; the order
      id is not among the required fields. The JSON value `null` passes the
      parse and then throws, so the answer is the framework's 500 without a
      JSON body. */
  lemma RequestChecks(env: Env, body: RequestBody, now: nat, g: GatewayReply)
    requires CredentialsPresent(env)
    ensures body.NotJson? ==> Post(env, body, now, g) == Initiated(Json(400, Message("Invalid request body")), None)
    ensures body.JsonNull? ==> Post(env, body, now, g) == Initiated(UncaughtError, None)
    ensures body.JsonBody? && !RequiredPresent(body.request) ==>
              Post(env, body, now, g) == Initiated(Json(400, Message("Missing required fields")), None)
    ensures body.JsonBody? && RequiredPresent(body.request) ==>
              Post(env, JsonBody(body.request.(orderId := None)), now, g).session.Some?
  {
  }

  /** The session request: the posted amount and customer, currency BDT, a
      `TRN_` transaction id, callbacks under `/api/payment/`, cancel back to
      `/checkout`, and no pass-through field. */
  lemma SessionContents(env: Env, body: RequestBody, now: nat, g: GatewayReply)
    requires Post(env, body, now, g).session.Some?
    ensures var p := Post(env, body, now, g).session.value;
      var base := OrElse(env.baseUrl, "http://localhost:3000");
      && p.totalAmount == body.request.amount.value && p.totalAmount != 0
      && p.customerName == body.request.customerName.value
      && p.customerEmail == body.request.customerEmail.value
      && p.currency == "BDT"
      && p.tranId == TranId(now)
      && p.successUrl == base + "/api/payment/success"
      && p.failUrl == base + "/api/payment/fail"
      && p.ipnUrl == base + "/api/payment/ipn"
      && p.cancelUrl == base + "/checkout"
      && p.valueA == None
  {
  }

  /** A transaction id is "TRN_" followed by decimal digits, and sessions
      opened at different milliseconds get different ids. */
  lemma TranIdShape(now: nat, later: nat)
    ensures StartsWith(TranId(now), "TRN_")
    ensures |TranId(now)| > 4 && forall k :: 4 <= k < |TranId(now)| ==> IsDigit(TranId(now)[k])
    ensures now != later ==> TranId(now) != TranId(later)
  {
    NatToDecimalShape(now);
    forall k | 4 <= k < |TranId(now)|
      ensures IsDigit(TranId(now)[k])
    {
      assert TranId(now)[k] == NatToDecimal(now)[k - 4];
    }
    if TranId(now) == TranId(later) {
      assert NatToDecimal(now) == TranId(now)[4..] == TranId(later)[4..] == NatToDecimal(later);
      NatToDecimalInjective(now, later);
    }
  }

  /** 200 with the gateway page iff the gateway answered status "SUCCESS"
      with a gateway page URL; any other answer is a 400 carrying the answer;
      a thrown error is a 500 carrying its message. */
  lemma ReplyClassifies(env: Env, body: RequestBody, now: nat, g: GatewayReply)
    requires Post(env, body, now, g).session.Some?
    ensures var resp := Post(env, body, now, g).response;
      && (resp.status == 200 <==> g.Answered? && Field(g.fields, "status") == Some("SUCCESS") && Truthy(Field(g.fields, "GatewayPageURL")))
      && (resp.status == 200 ==> resp.body == GatewayPage(g.fields["GatewayPageURL"]))
      && (resp.status == 400 <==> g.Answered? && resp.status != 200)
      && (resp.status == 400 ==> resp.body == MessageWithDetails("Payment initiation failed", g.fields))
      && (resp.status == 500 <==> g.Unreachable?)
      && (g.Unreachable? ==> resp.body == MessageWithError("Failed to initiate payment", g.message))
  {
  }

  /** The session request as it would be with the checkout's `order_id`
      forwarded in the pass-through field `value_a`. */
  function ForwardingPayload(env: Env, r: InitiateRequest, nowMillis: nat): (p: Payload)
    requires CredentialsPresent(env) && RequiredPresent(r)
    ensures p.valueA == r.orderId
    ensures p.(valueA := None) == SessionPayload(env, r, nowMillis)
  {
    SessionPayload(env, r, nowMillis).(valueA := r.orderId)
  }
}
