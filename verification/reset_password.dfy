/** Changing the admin password, `src/app/dashboard/reset-password/page.tsx`:
    form checks in a fixed order, then re-authentication, then the update. */
module ResetPassword {
  import opened Js
  import opened Ui

  datatype ResetForm = ResetForm(currentPassword: string, newPassword: string, confirmPassword: string)

  /** `auth.currentUser`, when someone is signed in. */
  datatype User = User(email: string)

  /** An SDK call's result: resolved, or rejected with an error. */
  datatype SdkResult = Resolved | Rejected(error: Caught)

  datatype SdkCall = Reauthenticate(email: string, password: string) | UpdatePassword(newPassword: string)

  datatype ResetRun = ResetRun(calls: seq<SdkCall>, toast: Toast, navigateTo: Option<string>, formReset: bool)

  const MinLength := 6

  /** The message for a rejected re-authentication or update. */
  function ErrorMessage(e: Caught): (m: string)
    ensures e == Coded("auth/wrong-password") ==> m == "Incorrect current password."
    ensures e == Coded("auth/requires-recent-login") ==> m == "Please log out and log in again to update your password."
    ensures e == Coded("auth/weak-password") ==> m == "Password is too weak. Choose a stronger one."
    ensures !(e.Coded? && e.code in {"auth/wrong-password", "auth/requires-recent-login", "auth/weak-password"}) ==>
              m == "Failed to update password. Please try again."
  {
    match e
    case Coded("auth/wrong-password") => "Incorrect current password."
    case Coded("auth/requires-recent-login") => "Please log out and log in again to update your password."
    case Coded("auth/weak-password") => "Password is too weak. Choose a stronger one."
    case _ => "Failed to update password. Please try again."
  }

  /** `onSubmit`. `reauth` and `update` are what the two SDK calls would do. */
  function Submit(user: Option<User>, f: ResetForm, reauth: SdkResult, update: SdkResult): (r: ResetRun)
    ensures |r.calls| <= 2
    ensures r.navigateTo == Some("/dashboard") <==> r.toast.SuccessToast?
    ensures r.formReset <==> r.toast.SuccessToast?
    ensures r.navigateTo == Some("/login") <==> user.None?
  {
    if user.None? then ResetRun([], ErrorToast("You must be logged in to change your password."), Some("/login"), false)
    else if f.newPassword != f.confirmPassword then ResetRun([], ErrorToast("New password and confirmation do not match."), None, false)
    else if |f.newPassword| < MinLength then ResetRun([], ErrorToast("Password must be at least 6 characters long."), None, false)
    else
      var first := Reauthenticate(user.value.email, f.currentPassword);
      match reauth
      case Rejected(e) => ResetRun([first], ErrorToast(ErrorMessage(e)), None, false)
      case Resolved =>
        var both := [first, UpdatePassword(f.newPassword)];
        match update
        case Rejected(e) => ResetRun(both, ErrorToast(ErrorMessage(e)), None, false)
        case Resolved => ResetRun(both, SuccessToast("Password successfully updated!"), Some("/dashboard"), true)
  }

  /** The checks come in order: signed in, then matching confirmation, then
      length; no SDK call is made until all three pass. */
  lemma ChecksComeFirst(user: Option<User>, f: ResetForm, reauth: SdkResult, update: SdkResult)
    ensures var r := Submit(user, f, reauth, update);
      && (user.None? ==> r.calls == [] && r.navigateTo == Some("/login") && r.toast.ErrorToast?)
      && (user.Some? && f.newPassword != f.confirmPassword ==>
            r.calls == [] && r.toast == ErrorToast("New password and confirmation do not match."))
      && (user.Some? && f.newPassword == f.confirmPassword && |f.newPassword| < MinLength ==>
            r.calls == [] && r.toast == ErrorToast("Password must be at least 6 characters long."))
      && (r.calls != [] <==> user.Some? && f.newPassword == f.confirmPassword && |f.newPassword| >= MinLength)
  {
  }

  /** The password is updated only after re-authentication with the current
      password succeeds, and success is reported only when both succeed. */
  lemma UpdateOnlyAfterReauth(user: Option<User>, f: ResetForm, reauth: SdkResult, update: SdkResult)
    ensures var r := Submit(user, f, reauth, update);
      && (forall i :: 0 <= i < |r.calls| && r.calls[i].UpdatePassword? ==>
            i > 0 && r.calls[i - 1] == Reauthenticate(user.value.email, f.currentPassword) && reauth.Resolved?)
      && (r.toast.SuccessToast? <==> r.calls != [] && reauth.Resolved? && update.Resolved?)
      && (r.toast.SuccessToast? ==> r.navigateTo == Some("/dashboard") && r.formReset)
      && (r.calls != [] && r.toast.ErrorToast? ==>
            r.toast.message == ErrorMessage(if reauth.Rejected? then reauth.error else update.error))
  {
  }
}
