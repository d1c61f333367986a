/** Password-reset requests, `src/app/forgot-password/page.tsx`. */
module ForgotPassword {
  import opened Js
  import opened Ui

  /** `sendPasswordResetEmail`: resolved, or rejected with an error. */
  datatype Sent = Delivered | RejectedWith(error: Caught)

  datatype ForgotRun = ForgotRun(successMessage: Option<string>, error: Option<string>, toast: Toast, buttonDisabled: bool, formReset: bool)

  const SentMessage := "If that email is registered, a reset link has been sent to your inbox. Check your spam folder too."
  const NotFoundMessage := "If that email is registered, a reset link has been sent to your inbox."
  const OtherCodeMessage := "Something went wrong. Please try again."
  const NoCodeMessage := "Failed to send password reset link. Please try again."

  /** `onSubmit` as written. The 60-second re-enable timer is left out: the
      run ends with the button disabled after a success. */
  function Submit(s: Sent): (r: ForgotRun)
    ensures r.successMessage.Some? <==> s.Delivered?
    ensures r.successMessage.Some? ==> r.successMessage.value == SentMessage && r.toast == SuccessToast(SentMessage) && r.buttonDisabled
    ensures r.error.Some? <==> s.RejectedWith?
    ensures r.error.Some? ==> r.toast == ErrorToast(r.error.value) && !r.buttonDisabled
  {
    match s
    case Delivered => ForgotRun(Some(SentMessage), None, SuccessToast(SentMessage), true, true)
    case RejectedWith(e) =>
      var m := match e
        case Coded("auth/user-not-found") => NotFoundMessage
        case Coded(_) => OtherCodeMessage
        case Uncoded => NoCodeMessage;
      ForgotRun(None, Some(m), ErrorToast(m), false, false)
  }

  /** The error message by code: an unknown account gets the
      "If that email is registered" wording, any other string code the
      generic retry message, an error without a string code the
      failed-to-send message. */
  lemma ErrorMessages(e: Caught)
    ensures e == Coded("auth/user-not-found") ==> Submit(RejectedWith(e)).error == Some(NotFoundMessage)
    ensures e.Coded? && e.code != "auth/user-not-found" ==> Submit(RejectedWith(e)).error == Some(OtherCodeMessage)
    ensures e.Uncoded? ==> Submit(RejectedWith(e)).error == Some(NoCodeMessage)
  {
  }

  /** As written the page tells a registered address from an unknown one:
      a different text, shown as an error rather than a success, and the
      button stays enabled. */
  lemma UnknownAddressDistinguishable()
    ensures Submit(Delivered) != Submit(RejectedWith(Coded("auth/user-not-found")))
    ensures Submit(Delivered).toast.SuccessToast? && Submit(RejectedWith(Coded("auth/user-not-found"))).toast.ErrorToast?
    ensures |SentMessage| != |NotFoundMessage|
  {
  }

  /** The page with the unknown-address case answered exactly like a sent
      link. */
  function SubmitUniform(s: Sent): (r: ForgotRun)
    ensures s != RejectedWith(Coded("auth/user-not-found")) ==> r == Submit(s)
  {
    if s == RejectedWith(Coded("auth/user-not-found")) then Submit(Delivered) else Submit(s)
  }

  /** With the corrected handling, a registered address and an unknown one
      produce the same page. */
  lemma UniformHidesRegistration()
    ensures SubmitUniform(RejectedWith(Coded("auth/user-not-found"))) == SubmitUniform(Delivered)
    ensures SubmitUniform(Delivered).successMessage == Some(SentMessage)
  {
  }
}
