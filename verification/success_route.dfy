/** The SSLCommerz success callback, `src/app/api/payment/success/route.ts`:
    the POST the gateway sends after a payment and the GET a browser may
    replay. */
module SuccessRoute {
  import opened Js
  import opened Http
  import opened Gateway

  /** What `fetchOrderDetails` resolves to. */
  datatype OrderDetails = OrderDetails(
    email: string,
    fullName: string,
    totalPrice: int,
    address: string,
    phone: string,
    paymentMethod: Option<string>)

  /** `fetchOrderDetails` either yields details, resolves to nothing, or throws. */
  datatype FetchOutcome = Found(details: OrderDetails) | NothingFound | FetchThrew

  /** The outcomes of the collaborators this handler awaits. The outcome of
      `updatePaymentStatus` and of the admin mail is caught and only logged,
      so it cannot influence anything and is not an input. */
  datatype Collaborators = Collaborators(
    verifier: VerifierOutcome,
    fetch: FetchOutcome,
    customerMailSent: bool)

  const ConfigError: Response := Redirect(SeeOther, Url("/payment-failed", [("reason", "config_error")]))
  const MissingData: Response := Redirect(SeeOther, Url("/payment-failed", [("reason", "missing_data")]))
  const ErrorPage: Response := Redirect(SeeOther, Url("/payment/error", []))

  function SuccessUrl(tranId: string, orderId: string): Url
  {
    Url("/payment-success", [("transactionId", tranId), ("orderId", orderId)])
  }

  function FailureUrl(tranId: string, status: string, orderId: string): Url
  {
    Url("/payment-failed", [("transactionId", tranId), ("status", status), ("orderId", orderId)])
  }

  function SuccessPage(tranId: string, orderId: string): Response
  {
    Redirect(SeeOther, SuccessUrl(tranId, orderId))
  }

  function EndpointFor(env: Env): Endpoint
  {
    if env.production then Live else Sandbox
  }

  /** `val_id`, `tran_id`, `amount` and the order id in `value_a` are all truthy. */
  predicate HasCorrelation(f: map<string, string>)
  {
    Truthy(Field(f, "val_id")) && Truthy(Field(f, "tran_id"))
    && Truthy(Field(f, "amount")) && Truthy(Field(f, "value_a"))
  }

  /** The mails sent after a validated payment: the customer's confirmation,
      then the admin notice. A failed customer mail skips the admin mail; an
      order without a payment method throws while the admin mail is being
      built, so it is not sent either. Both failures are swallowed. */
  function Mails(env: Env, fetch: FetchOutcome, customerMailSent: bool): (m: seq<Call>)
    ensures |m| <= 2 && forall i :: 0 <= i < |m| ==> m[i].SendMail?
    ensures |m| > 0 <==> fetch.Found?
    ensures |m| > 0 ==> m[0] == SendMail(fetch.details.email, "Order Confirmation")
    ensures |m| == 2 <==> fetch.Found? && customerMailSent && fetch.details.paymentMethod.Some?
  {
    match fetch
    case Found(d) =>
      [SendMail(d.email, "Order Confirmation")]
      + (if customerMailSent && d.paymentMethod.Some?
         then [SendMail(OrElse(env.adminEmail, ""), "New Order Received")]
         else [])
    case _ => []
  }

  lemma PagesDistinct()
    ensures "/payment-success" != "/payment-failed"
    ensures "/payment-success" != "/payment/error"
    ensures "/payment-failed" != "/payment/error"
  {
    assert "/payment-success"[9] != "/payment-failed"[9];
    assert "/payment-success"[8] != "/payment/error"[8];
  }

  /** POST: the gateway's form post after a payment. The success and failure
      pages are built inside the `try`, so a text the header check of
      `new Response` refuses ends on the error page; on the success path that
      happens after the store write and the mails. */
  function Post(env: Env, body: FormBody, ext: Collaborators): (h: Handled)
    ensures h.response.Redirect? && h.response.status == SeeOther
    ensures |h.calls| > 0 ==> h.calls[0].Validate?
    ensures forall i :: 1 <= i < |h.calls| ==> !h.calls[i].Validate?
  {
    if !CredentialsPresent(env) then Handled(ConfigError, [])
    else match body
      case Unparseable(_) => Handled(ErrorPage, [])
      case Form(f) =>
        if !HasCorrelation(f) then Handled(MissingData, [])
        else
          var tranId := f["tran_id"];
          var orderId := f["value_a"];
          var validate := Validate(EndpointFor(env), f["val_id"], env.storeId.value, env.storePasswd.value);
          match ext.verifier
          case Threw(_) => Handled(ErrorPage, [validate])
          case Replied(data) =>
            var status := Field(data, "status");
            if IsValidated(status) then
              Handled(if Sendable(SuccessUrl(tranId, orderId)) then SuccessPage(tranId, orderId) else ErrorPage,
                      [validate, FetchOrderDetails(orderId), UpdatePaymentStatus(orderId, tranId, data)]
                      + Mails(env, ext.fetch, ext.customerMailSent))
            else
              var failed := FailureUrl(tranId, Interpolate(status, Undefined), orderId);
              Handled(if Sendable(failed) then Redirect(SeeOther, failed) else ErrorPage, [validate])
  }

  lemma MailsAreMailsOnly(env: Env, fetch: FetchOutcome, sent: bool)
    ensures forall i :: 0 <= i < |Mails(env, fetch, sent)| ==> Mails(env, fetch, sent)[i].SendMail?
  {
  }

  /** Without store credentials the handler answers before reading the body:
      the answer is the same for every body and every collaborator outcome,
      and nothing is called. */
  lemma ConfigErrorIgnoresRequest(env: Env, b1: FormBody, e1: Collaborators, b2: FormBody, e2: Collaborators)
    requires !CredentialsPresent(env)
    ensures Post(env, b1, e1) == Post(env, b2, e2)
    ensures Post(env, b1, e1).response == ConfigError && Post(env, b1, e1).calls == []
  {
  }

  /** A callback lacking any of the four fields is turned away with
      `missing_data` before the gateway, the store or the mailer is called. */
  lemma MissingFieldsCallNothing(env: Env, f: map<string, string>, ext: Collaborators)
    requires CredentialsPresent(env) && !HasCorrelation(f)
    ensures Post(env, Form(f), ext) == Handled(MissingData, [])
  {
  }

  /** The store is written iff the credentials are set, the form parses and
      carries all four fields, and the validation call answers exactly
      "VALID" or "VALIDATED"; then it is written exactly once, with the
      order id from `value_a` and the posted `tran_id`. */
  lemma {:induction false} WriteIffValidated(env: Env, body: FormBody, ext: Collaborators)
    ensures CountWrites(Post(env, body, ext).calls) > 0
        <==> CredentialsPresent(env) && body.Form? && HasCorrelation(body.fields) && Validated(ext.verifier)
    ensures CountWrites(Post(env, body, ext).calls) <= 1
    ensures CountWrites(Post(env, body, ext).calls) == 1 ==>
              Post(env, body, ext).calls[2] == UpdatePaymentStatus(body.fields["value_a"], body.fields["tran_id"], ext.verifier.data)
  {
    var h := Post(env, body, ext);
    if CredentialsPresent(env) && body.Form? && HasCorrelation(body.fields) && Validated(ext.verifier) {
      var ms := Mails(env, ext.fetch, ext.customerMailSent);
      MailsAreMailsOnly(env, ext.fetch, ext.customerMailSent);
      NoWritesCountZero(ms);
      var pre := [h.calls[0], h.calls[1], h.calls[2]];
      assert h.calls == pre + ms;
      assert CountWrites(pre[2..]) == 1;
      assert CountWrites(pre[1..]) == 1;
      CountWritesConcat(pre, ms);
    } else {
      assert |h.calls| <= 1;
    }
  }

  lemma {:induction false} CountWritesConcat(a: seq<Call>, b: seq<Call>)
    ensures CountWrites(a + b) == CountWrites(a) + CountWrites(b)
    decreases |a|
  {
    if |a| > 0 {
      assert (a + b)[1..] == a[1..] + b;
      CountWritesConcat(a[1..], b);
    } else {
      assert a + b == b;
    }
  }

  lemma {:induction false} NoWritesCountZero(calls: seq<Call>)
    requires forall i :: 0 <= i < |calls| ==> calls[i].SendMail?
    ensures CountWrites(calls) == 0
    decreases |calls|
  {
    if |calls| > 0 {
      NoWritesCountZero(calls[1..]);
    }
  }

  /** A validated callback ends on the same page whatever fetching the
      order, writing the store or mailing did, and the payment has been
      written by then: the success page with the posted `tran_id` and
      `value_a` when the header check accepts it, the error page otherwise. */
  lemma SuccessRedirectIgnoresStoreAndMail(env: Env, f: map<string, string>, ext1: Collaborators, ext2: Collaborators)
    requires CredentialsPresent(env) && HasCorrelation(f)
    requires ext1.verifier == ext2.verifier && Validated(ext1.verifier)
    ensures Post(env, Form(f), ext1).response == Post(env, Form(f), ext2).response
    ensures Sendable(SuccessUrl(f["tran_id"], f["value_a"])) ==>
              Post(env, Form(f), ext1).response == SuccessPage(f["tran_id"], f["value_a"])
    ensures !Sendable(SuccessUrl(f["tran_id"], f["value_a"])) ==> Post(env, Form(f), ext1).response == ErrorPage
    ensures |Post(env, Form(f), ext1).calls| >= 3
    ensures Post(env, Form(f), ext1).calls[2] == UpdatePaymentStatus(f["value_a"], f["tran_id"], ext1.verifier.data)
  {
  }

  /** A validated callback whose `tran_id` holds a character above U+00FF
      (a Bengali letter, say) is recorded as paid, yet the payer is sent to
      the error page. */
  lemma WideTranIdWritesThenErrs(env: Env, f: map<string, string>, ext: Collaborators, ch: char)
    requires CredentialsPresent(env) && HasCorrelation(f) && Validated(ext.verifier)
    requires ch in f["tran_id"] && ch > '\U{FF}'
    ensures Post(env, Form(f), ext).response == ErrorPage
    ensures CountWrites(Post(env, Form(f), ext).calls) == 1
  {
    WideCharUnsendable(SuccessUrl(f["tran_id"], f["value_a"]), 0, ch);
    WriteIffValidated(env, Form(f), ext);
  }

  /** Any other answer from the validation call makes no further call and
      goes to the failure page carrying the transaction id, the reported
      status and the order id, or to the error page when the header check
      refuses that text. */
  lemma OtherStatusFails(env: Env, f: map<string, string>, ext: Collaborators)
    requires CredentialsPresent(env) && HasCorrelation(f)
    requires ext.verifier.Replied? && !Validated(ext.verifier)
    ensures var h := Post(env, Form(f), ext);
      var status := Interpolate(Field(ext.verifier.data, "status"), Undefined);
      && OnlyValidation(h.calls)
      && (!Sendable(FailureUrl(f["tran_id"], status, f["value_a"])) ==> h.response == ErrorPage)
      && (Sendable(FailureUrl(f["tran_id"], status, f["value_a"])) ==>
          && h.response.location.path == "/payment-failed"
          && QueryValue(h.response.location, "transactionId") == Some(f["tran_id"])
          && QueryValue(h.response.location, "status") == Some(status)
          && QueryValue(h.response.location, "orderId") == Some(f["value_a"]))
  {
    var q := FailureUrl(f["tran_id"], Interpolate(Field(ext.verifier.data, "status"), Undefined), f["value_a"]).query;
    QueryValueAt(q, "transactionId", 0);
    QueryValueAt(q, "status", 1);
    QueryValueAt(q, "orderId", 2);
  }

  /** Mail goes out only when order details were fetched, the customer's
      first and to the stored address, the admin's second; neither a failed
      mail nor anything else about mailing changes the response. */
  lemma MailsNeedDetails(env: Env, body: FormBody, ext: Collaborators)
    ensures var h := Post(env, body, ext);
      && (!NoMail(h.calls) ==> ext.fetch.Found? && Validated(ext.verifier))
      && (!NoMail(h.calls) ==> h.calls[3] == SendMail(ext.fetch.details.email, "Order Confirmation"))
      && (|h.calls| == 5 ==> h.calls[4].SendMail? && h.calls[4].subject == "New Order Received" && ext.customerMailSent)
      && Post(env, body, ext.(customerMailSent := !ext.customerMailSent)).response == h.response
  {
    var h := Post(env, body, ext);
    if CredentialsPresent(env) && body.Form? && HasCorrelation(body.fields) && Validated(ext.verifier) {
      MailsAreMailsOnly(env, ext.fetch, ext.customerMailSent);
    }
  }

  /** A body that cannot be read and a validation call that throws both end on
      the generic error page. */
  lemma ExceptionsReachErrorPage(env: Env, body: FormBody, ext: Collaborators)
    requires CredentialsPresent(env)
    requires body.Unparseable? || (HasCorrelation(body.fields) && ext.verifier.Threw?)
    ensures Post(env, body, ext).response == ErrorPage
    ensures OnlyValidation(Post(env, body, ext).calls)
  {
  }

  /** The GET's transaction id: `tran_id`, or `transactionId` when that is falsy. */
  function GetTranId(query: map<string, string>): Option<string>
  {
    Or(Field(query, "tran_id"), Field(query, "transactionId"))
  }

  predicate GetSucceeds(query: map<string, string>)
  {
    var status := Field(query, "status");
    Truthy(GetTranId(query)) && Truthy(Field(query, "orderId"))
    && (status == Some("Success") || status == Some("DONE") || !Truthy(status))
  }

  predicate GetFails(query: map<string, string>)
  {
    Field(query, "status") == Some("FAILED") || Field(query, "status") == Some("CANCELLED")
  }

  /** `new Response` outside any `try`: the 303, or the framework's 500 when
      the header check refuses the text. */
  function SeeOtherOr500(u: Url): Response
  {
    if Sendable(u) then Redirect(SeeOther, u) else UncaughtError
  }

  /** GET: the browser arrives with query parameters. `searchParams.get`
      gives `null` for a missing parameter, which the template prints as
      "null". No `try` guards the `Response`. */
  function Get(query: map<string, string>): (r: Response)
    ensures r.Redirect? || r.UncaughtError?
    ensures r.Redirect? ==> r.status == SeeOther
  {
    var tranId := GetTranId(query);
    var orderId := Field(query, "orderId");
    if GetSucceeds(query) then
      SeeOtherOr500(SuccessUrl(tranId.value, orderId.value))
    else if GetFails(query) then
      SeeOtherOr500(FailureUrl(Interpolate(tranId, Null), Field(query, "status").value, OrElse(orderId, "")))
    else
      ErrorPage
  }

  /** The GET reaches the success page iff a transaction id and an order id
      are present and the status is "Success", "DONE" or absent, carrying
      those ids; it reaches the failure page iff the status is "FAILED" or
      "CANCELLED" and the success case does not apply, carrying the id as
      written ("null" when neither parameter is present), the status and the
      order id or ""; anything else reaches the error page with no query.
      The first two are the framework's 500 exactly when the header check
      refuses their text; the error page always goes out. */
  lemma GetClassifies(query: map<string, string>)
    ensures var tranId := Or(Field(query, "tran_id"), Field(query, "transactionId"));
      var orderId := Field(query, "orderId");
      var status := Field(query, "status");
      var success := Truthy(tranId) && Truthy(orderId) && (status == Some("Success") || status == Some("DONE") || !Truthy(status));
      var failure := status == Some("FAILED") || status == Some("CANCELLED");
      && (!success && !failure ==> Get(query) == ErrorPage)
      && (Get(query).UncaughtError? ==> success || failure)
      && (success ==> (Get(query).Redirect? <==> Sendable(SuccessUrl(tranId.value, orderId.value))))
      && (failure && !success ==>
          (Get(query).Redirect? <==> Sendable(FailureUrl(Interpolate(tranId, Null), status.value, OrElse(orderId, "")))))
      && (Get(query).Redirect? ==>
          var u := Get(query).location;
          && (u.path == "/payment-success" <==> success)
          && (u.path == "/payment-failed" <==> failure)
          && (u.path == "/payment/error" <==> !success && !failure)
          && (u.path == "/payment/error" ==> u.query == [])
          && (success ==>
              QueryValue(u, "transactionId") == Some(tranId.value)
              && QueryValue(u, "orderId") == Some(orderId.value))
          && (failure ==>
              QueryValue(u, "transactionId") == Some(Interpolate(tranId, Null))
              && QueryValue(u, "status") == status
              && QueryValue(u, "orderId") == Some(OrElse(orderId, ""))))
  {
    PagesDistinct();
    if Get(query).Redirect? {
      var q := Get(query).location.query;
      if Get(query).location.path == "/payment-success" {
        QueryValueAt(q, "transactionId", 0);
        QueryValueAt(q, "orderId", 1);
      } else if Get(query).location.path == "/payment-failed" {
        QueryValueAt(q, "transactionId", 0);
        QueryValueAt(q, "status", 1);
        QueryValueAt(q, "orderId", 2);
      }
    }
  }

  /** An order id holding a character above U+00FF gets the framework's 500
      on the way to the success or failure page; otherwise the error page. */
  lemma WideOrderIdIsUncaught(query: map<string, string>, ch: char)
    requires "orderId" in query && ch in query["orderId"] && ch > '\U{FF}'
    ensures Get(query) == UncaughtError || Get(query) == ErrorPage
    ensures GetSucceeds(query) || GetFails(query) ==> Get(query) == UncaughtError
  {
    var tranId := GetTranId(query);
    if GetSucceeds(query) {
      WideCharUnsendable(SuccessUrl(tranId.value, query["orderId"]), 1, ch);
    } else if GetFails(query) {
      WideCharUnsendable(FailureUrl(Interpolate(tranId, Null), query["status"], query["orderId"]), 2, ch);
    }
  }

  /** On the success page the ids are read back as sent when they are
      printable ASCII without `&`, `#`, `+` or `%` and the order id does not
      end in a space. */
  lemma GetSuccessPageReads(query: map<string, string>)
    requires var tranId := Or(Field(query, "tran_id"), Field(query, "transactionId"));
      var status := Field(query, "status");
      Truthy(tranId) && "orderId" in query && query["orderId"] != ""
      && (status == Some("Success") || status == Some("DONE") || !Truthy(status))
    requires var tranId := Or(Field(query, "tran_id"), Field(query, "transactionId"));
      SafeValue(tranId.value) && SafeValue(query["orderId"]) && NoTrailingSpace(query["orderId"])
    ensures Get(query).Redirect? && Get(query).location.path == "/payment-success"
    ensures var tranId := Or(Field(query, "tran_id"), Field(query, "transactionId"));
      PageParam(Get(query).location, "transactionId") == tranId
      && PageParam(Get(query).location, "orderId") == Field(query, "orderId")
  {
    var tranId := GetTranId(query);
    SuccessPageReads(tranId.value, query["orderId"]);
  }

  /** On the failure page the transaction id, status and order id are read
      back as written when the id and the order id are printable ASCII
      without `&`, `#`, `+` or `%` and the order id does not end in a space. */
  lemma GetFailurePageReads(query: map<string, string>)
    requires Field(query, "status") == Some("FAILED") || Field(query, "status") == Some("CANCELLED")
    requires var tranId := Or(Field(query, "tran_id"), Field(query, "transactionId"));
      SafeValue(Interpolate(tranId, Null)) && SafeValue(OrElse(Field(query, "orderId"), ""))
      && NoTrailingSpace(OrElse(Field(query, "orderId"), ""))
    ensures Get(query).Redirect? && Get(query).location.path == "/payment-failed"
    ensures var tranId := Or(Field(query, "tran_id"), Field(query, "transactionId"));
      && PageParam(Get(query).location, "transactionId") == Some(Interpolate(tranId, Null))
      && PageParam(Get(query).location, "status") == Field(query, "status")
      && PageParam(Get(query).location, "orderId") == Some(OrElse(Field(query, "orderId"), ""))
  {
    var tranId := GetTranId(query);
    var status := query["status"];
    if status == "FAILED" {
      FailedSafe();
    } else {
      CancelledSafe();
    }
    FailurePageReads(Interpolate(tranId, Null), status, OrElse(Field(query, "orderId"), ""));
  }

  lemma FailedSafe()
    ensures SafeValue("FAILED")
  {
  }

  lemma CancelledSafe()
    ensures SafeValue("CANCELLED")
  {
  }

  lemma SuccessPathSafe()
    ensures SafePath("/payment-success")
  {
  }

  lemma FailurePathSafe()
    ensures SafePath("/payment-failed")
  {
  }

  lemma IdKeySafe()
    ensures SafeKey("transactionId")
  {
  }

  lemma StatusKeySafe()
    ensures SafeKey("status") && "status" != "transactionId"
  {
  }

  lemma OrderKeySafe()
    ensures SafeKey("orderId") && "orderId" != "transactionId" && "orderId" != "status"
  {
  }

  lemma FailurePageReads(tranId: string, status: string, orderId: string)
    requires SafeValue(tranId) && SafeValue(status) && SafeValue(orderId) && NoTrailingSpace(orderId)
    ensures Sendable(FailureUrl(tranId, status, orderId))
    ensures var u := FailureUrl(tranId, status, orderId);
      && PageParam(u, "transactionId") == Some(tranId)
      && PageParam(u, "status") == Some(status)
      && PageParam(u, "orderId") == Some(orderId)
  {
    FailurePathSafe();
    IdKeySafe();
    StatusKeySafe();
    OrderKeySafe();
    PageReadsThree("/payment-failed", "transactionId", tranId, "status", status, "orderId", orderId);
  }

  lemma SuccessPageReads(tranId: string, orderId: string)
    requires SafeValue(tranId) && SafeValue(orderId) && NoTrailingSpace(orderId)
    ensures Sendable(SuccessUrl(tranId, orderId))
    ensures PageParam(SuccessUrl(tranId, orderId), "transactionId") == Some(tranId)
    ensures PageParam(SuccessUrl(tranId, orderId), "orderId") == Some(orderId)
  {
    SuccessPathSafe();
    IdKeySafe();
    OrderKeySafe();
    PageReadsTwo("/payment-success", "transactionId", tranId, "orderId", orderId);
  }
}
