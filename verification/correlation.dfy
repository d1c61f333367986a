/** How a session opened by the initiate route comes back to the success
    route: the gateway posts the session's `tran_id`, its own `val_id` and
    `amount`, and echoes the pass-through field `value_a` when the session
    carried one. */
module Correlation {
  import opened Js
  import opened Http
  import opened Gateway
  import InitiateRoute
  import SuccessRoute

  /** The success callback the gateway posts for a session. */
  function Echo(p: InitiateRoute.Payload, valId: string, amount: string): FormBody
  {
    var fields := map["val_id" := valId, "tran_id" := p.tranId, "amount" := amount];
    Form(if p.valueA.Some? then fields["value_a" := p.valueA.value] else fields)
  }

  /** As written, no session carries `value_a`, so every callback for a
      session the initiate route opened is refused with `missing_data`: the
      payment is never validated, recorded or confirmed by mail. */
  lemma AsWrittenCallbackMissingData(env: Env, body: InitiateRoute.RequestBody, now: nat, g: InitiateRoute.GatewayReply,
                                     valId: string, amount: string, ext: SuccessRoute.Collaborators)
    requires CredentialsPresent(env)
    requires InitiateRoute.Post(env, body, now, g).session.Some?
    ensures SuccessRoute.Post(env, Echo(InitiateRoute.Post(env, body, now, g).session.value, valId, amount), ext)
            == Handled(SuccessRoute.MissingData, [])
  {
    InitiateRoute.SessionContents(env, body, now, g);
  }

  /** With the order id forwarded, a validated callback records the payment
      against that order and reaches its success page, or the error page when
      the header check refuses the success page's text (an order id holding a
      character above U+00FF, say). */
  lemma ForwardedCallbackReachesSuccess(env: Env, r: InitiateRoute.InitiateRequest, now: nat,
                                        valId: string, amount: string, ext: SuccessRoute.Collaborators)
    requires CredentialsPresent(env) && InitiateRoute.RequiredPresent(r)
    requires Truthy(r.orderId) && valId != "" && amount != ""
    requires Validated(ext.verifier)
    ensures var p := InitiateRoute.ForwardingPayload(env, r, now);
      var h := SuccessRoute.Post(env, Echo(p, valId, amount), ext);
      && (Sendable(SuccessRoute.SuccessUrl(p.tranId, r.orderId.value)) ==>
          h.response == SuccessRoute.SuccessPage(p.tranId, r.orderId.value))
      && (!Sendable(SuccessRoute.SuccessUrl(p.tranId, r.orderId.value)) ==> h.response == SuccessRoute.ErrorPage)
      && h.calls[2] == UpdatePaymentStatus(r.orderId.value, p.tranId, ext.verifier.data)
  {
    var p := InitiateRoute.ForwardingPayload(env, r, now);
    assert p.tranId[0] == 'T';
  }
}
