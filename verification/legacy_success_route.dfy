/** The older success callback, `src/app/api/payment/success/route.js`: it
    validates and redirects, but checks no field and writes nothing. */
module LegacySuccessRoute {
  import opened Js
  import opened Http
  import opened Gateway

  const ErrorPage: Response := Redirect(TemporaryRedirect, Url("/payment/error", []))

  /** The validation request this route sends: always the sandbox endpoint,
      with whatever the form and the environment hold interpolated into the
      URL, so a missing value travels as the text "undefined". */
  function ValidationCall(env: Env, f: map<string, string>): Call
  {
    Validate(Sandbox, Interpolate(Field(f, "val_id"), Undefined),
             Interpolate(env.storeId, Undefined), Interpolate(env.storePasswd, Undefined))
  }

  function Post(env: Env, body: FormBody, verifier: VerifierOutcome): (h: Handled)
    ensures h.response.Redirect? && h.response.status == TemporaryRedirect
    ensures OnlyValidation(h.calls) && |h.calls| <= 1
  {
    match body
    case Unparseable(_) => Handled(ErrorPage, [])
    case Form(f) =>
      var validate := ValidationCall(env, f);
      match verifier
      case Threw(_) => Handled(ErrorPage, [validate])
      case Replied(data) =>
        if IsValidated(Field(data, "status")) then
          Handled(Redirect(TemporaryRedirect, Url("/payment/success",
                    [("transactionId", Interpolate(Field(f, "tran_id"), Undefined)),
                     ("amount", Interpolate(Field(f, "amount"), Undefined))])),
                  [validate])
        else
          Handled(Redirect(TemporaryRedirect, Url("/payment/failed",
                    [("transactionId", Interpolate(Field(f, "tran_id"), Undefined))])),
                  [validate])
  }

  /** Every readable form, however incomplete, is sent to the validation
      endpoint; the answer alone picks the success page (with the posted
      transaction id and amount), the failure page or the error page. */
  lemma ValidatesEveryForm(env: Env, f: map<string, string>, verifier: VerifierOutcome)
    ensures var h := Post(env, Form(f), verifier);
      && h.calls == [ValidationCall(env, f)]
      && (h.response.location.path == "/payment/success" <==> Validated(verifier))
      && (h.response.location.path == "/payment/failed" <==> verifier.Replied? && !Validated(verifier))
      && (h.response.location.path == "/payment/error" <==> verifier.Threw?)
      && (Validated(verifier) ==>
            QueryValue(h.response.location, "transactionId") == Some(Interpolate(Field(f, "tran_id"), Undefined))
            && QueryValue(h.response.location, "amount") == Some(Interpolate(Field(f, "amount"), Undefined)))
  {
    PagesDistinct();
    var q := Post(env, Form(f), verifier).response.location.query;
    if Validated(verifier) {
      QueryValueAt(q, "transactionId", 0);
      QueryValueAt(q, "amount", 1);
    }
  }

  /** Nothing is written on any path, and an unreadable body skips validation. */
  lemma NeverWrites(env: Env, body: FormBody, verifier: VerifierOutcome)
    ensures NoWrites(Post(env, body, verifier).calls) && NoMail(Post(env, body, verifier).calls)
    ensures body.Unparseable? ==> Post(env, body, verifier) == Handled(ErrorPage, [])
  {
  }

  lemma PagesDistinct()
    ensures "/payment/success" != "/payment/failed"
    ensures "/payment/success" != "/payment/error"
    ensures "/payment/failed" != "/payment/error"
  {
    assert "/payment/success"[9] != "/payment/failed"[9];
    assert "/payment/success"[9] != "/payment/error"[9];
    assert "/payment/failed"[9] != "/payment/error"[9];
  }

  /** GET: always the success page, carrying the `transactionId` parameter
      (the text "null" when it is missing). */
  function Get(query: map<string, string>): (r: Response)
    ensures r.Redirect? && r.status == TemporaryRedirect && r.location.path == "/payment/success"
    ensures "transactionId" in query ==> QueryValue(r.location, "transactionId") == Some(query["transactionId"])
    ensures "transactionId" !in query ==> QueryValue(r.location, "transactionId") == Some("null")
  {
    Redirect(TemporaryRedirect, Url("/payment/success",
      [("transactionId", Interpolate(Field(query, "transactionId"), Null))]))
  }

  /** No other parameter, a `status` included, changes where the GET goes. */
  lemma GetIgnoresStatus(query: map<string, string>, key: string, value: string)
    requires key != "transactionId"
    ensures Get(query[key := value]) == Get(query)
    ensures Get(query).location.path == "/payment/success"
  {
  }
}
