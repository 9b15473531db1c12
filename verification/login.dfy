/**
 * The login page's decision, without the simulated network delay: which
 * error it shows and whether it hands the credentials to `onLogin`.
 */
module Login {
  import opened Util

  const AdminUsername: string := "admin"
  const AdminPassword: string := "123456"

  /** The three messages the page can show. */
  datatype LoginError = MissingFields | InvalidCredentials | UnexpectedFailure

  /** What the page holds between attempts. */
  datatype LoginView = LoginView(username: string, password: string, error: Option<LoginError>)

  /** The page after an attempt, and whether `onLogin` completed. */
  datatype Attempt = Attempt(view: LoginView, loggedIn: bool)

  /**
   * `handleLogin`. The first step clears the previous error. `callbackThrows`
   * says whether `onLogin` throws; the page catches that and shows the
   * generic failure.
   */
  function HandleLogin(v: LoginView, callbackThrows: bool): (a: Attempt)
    ensures a.view.username == v.username && a.view.password == v.password
    ensures (v.username == "" || v.password == "") ==> a.view.error == Some(MissingFields)
    ensures a.loggedIn <==>
      v.username == AdminUsername && v.password == AdminPassword && !callbackThrows
    ensures v.username != "" && v.password != ""
            && (v.username != AdminUsername || v.password != AdminPassword) ==>
            a.view.error == Some(InvalidCredentials)
    ensures a.loggedIn ==> a.view.error.None?
    ensures a.view.error == Some(UnexpectedFailure) <==>
      v.username == AdminUsername && v.password == AdminPassword && callbackThrows
  {
    var cleared := v.(error := None);
    if v.username == "" || v.password == "" then
      Attempt(cleared.(error := Some(MissingFields)), false)
    else if v.username != AdminUsername || v.password != AdminPassword then
      Attempt(cleared.(error := Some(InvalidCredentials)), false)
    else if callbackThrows then
      Attempt(cleared.(error := Some(UnexpectedFailure)), false)
    else
      Attempt(cleared, true)
  }

  /** The error left over from an earlier attempt never affects the next one. */
  lemma PreviousErrorIrrelevant(v: LoginView, e1: Option<LoginError>, e2: Option<LoginError>, callbackThrows: bool)
    ensures HandleLogin(v.(error := e1), callbackThrows) == HandleLogin(v.(error := e2), callbackThrows)
  {
  }

  /** After a failed attempt, entering the right credentials logs in and shows no error. */
  lemma RetryAfterFailureSucceeds(v: LoginView)
    requires v.error.Some?
    ensures var a := HandleLogin(v.(username := AdminUsername, password := AdminPassword), false);
      a.loggedIn && a.view.error.None?
  {
  }
}
