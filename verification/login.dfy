/** Admin sign-in, `src/app/login/page.tsx`: sign in, post the id token to
    the session route, go to the dashboard; on any rejection pick a message
    by error code. */
module Login {
  import opened Js
  import opened Ui

  /** How far the sign-in got: every step resolved, or the first rejection
      (from `signInWithEmailAndPassword`, `getIdToken` or `fetch`). The
      session route's reply status is not inspected. */
  datatype Attempt = AllResolved | RejectedWith(error: Caught)

  datatype LoginRun = LoginRun(error: Option<string>, toast: Option<Toast>, navigateTo: Option<string>, loading: bool)

  const DefaultError := "An unexpected error occurred."

  /** `onSubmit`: loading always ends; only a full success navigates, to
      the dashboard, and it alone leaves no error message. */
  function Submit(a: Attempt): (r: LoginRun)
    ensures !r.loading
    ensures r.navigateTo.Some? <==> a.AllResolved?
    ensures r.navigateTo.Some? ==> r.navigateTo.value == "/dashboard"
    ensures r.error.None? <==> a.AllResolved?
  {
    match a
    case AllResolved => LoginRun(None, Some(SuccessToast("Login successful")), Some("/dashboard"), false)
    case RejectedWith(Uncoded) => LoginRun(Some(DefaultError), None, None, false)
    case RejectedWith(Coded(code)) =>
      if code == "auth/invalid-credential" || code == "auth/user-not-found" then
        LoginRun(Some("Invalid email or password."), Some(ErrorToast("Invalid email or password.")), None, false)
      else if code == "auth/wrong-password" then
        LoginRun(Some("Invalid password."), Some(ErrorToast("Invalid password")), None, false)
      else LoginRun(Some(DefaultError), Some(ErrorToast("Something went wrong!")), None, false)
  }

  /** The outcome by error: an unknown account and a bad credential share
      one message; a wrong password gets its own; any other string code
      keeps the default message with a generic toast; an error without a
      string code keeps the default with no toast. Loading always ends. */
  lemma MessagesByCode(a: Attempt)
    ensures var r := Submit(a);
      && !r.loading
      && (r.navigateTo.Some? <==> a.AllResolved?)
      && (r.error.None? <==> a.AllResolved?)
      && (a == RejectedWith(Coded("auth/invalid-credential")) || a == RejectedWith(Coded("auth/user-not-found")) ==>
            r.error == Some("Invalid email or password."))
      && (a == RejectedWith(Coded("auth/wrong-password")) ==> r.error == Some("Invalid password."))
      && (a.RejectedWith? && a.error.Coded?
          && a.error.code !in {"auth/invalid-credential", "auth/user-not-found", "auth/wrong-password"} ==>
            r.error == Some(DefaultError) && r.toast == Some(ErrorToast("Something went wrong!")))
      && (a == RejectedWith(Uncoded) ==> r.error == Some(DefaultError) && r.toast.None?)
  {
  }

  /** An unknown account and a wrong password for a known one look different
      to the visitor. */
  lemma AccountExistenceVisible()
    ensures Submit(RejectedWith(Coded("auth/user-not-found"))).error != Submit(RejectedWith(Coded("auth/wrong-password"))).error
  {
    assert "Invalid email or password."[0] != "Invalid password."[0] || "Invalid email or password."[8] != "Invalid password."[8];
  }
}
