/** The gateway's instant payment notification, `src/app/api/payment/ipn/route.js`. */
module IpnRoute {
  import opened Js
  import opened Http
  import opened Gateway

  function Post(env: Env, body: FormBody, verifier: VerifierOutcome): (h: Handled)
    ensures h.response.Json?
    ensures OnlyValidation(h.calls) && |h.calls| <= 1
  {
    match body
    case Unparseable(reason) => Handled(Json(500, MessageWithError("IPN processing error", reason)), [])
    case Form(f) =>
      var validate := Validate(Sandbox, Interpolate(Field(f, "val_id"), Undefined),
                               Interpolate(env.storeId, Undefined), Interpolate(env.storePasswd, Undefined));
      match verifier
      case Threw(message) => Handled(Json(500, MessageWithError("IPN processing error", message)), [validate])
      case Replied(data) =>
        if IsValidated(Field(data, "status")) then
          Handled(Json(200, Message("IPN processed successfully")), [validate])
        else
          Handled(Json(400, Message("IPN validation failed")), [validate])
  }

  /** 200 iff the form was read and validation answered VALID/VALIDATED; 400
      for any other answer; 500 with the thrown message otherwise. Either way
      no order is written and no mail is sent. */
  lemma StatusClassifies(env: Env, body: FormBody, verifier: VerifierOutcome)
    ensures var h := Post(env, body, verifier);
      && (h.response.status == 200 <==> body.Form? && Validated(verifier))
      && (h.response.status == 400 <==> body.Form? && verifier.Replied? && !Validated(verifier))
      && (h.response.status == 500 <==> body.Unparseable? || verifier.Threw?)
      && (body.Form? && verifier.Threw? ==> h.response.body == MessageWithError("IPN processing error", verifier.message))
      && NoWrites(h.calls) && NoMail(h.calls)
  {
  }
}
