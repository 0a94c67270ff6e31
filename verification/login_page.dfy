/** The sign-in form and the password-reset form. Each handler runs its checks
    in order and stops at the first failure without contacting the server;
    the server's answers are parameters. A flow records the requests sent, in
    order, and how it ended. */
module LoginPage {
  import opened Common
  import opened Patterns
  import opened Database
  import opened UserModel
  import opened UserController

  datatype Request = LoginRequest(email: string, password: string) | ResetRequest(email: string, newPassword: string)

  /** How a submit ends, one case per message the page can show. */
  datatype Outcome =
    | FillAllFields       // a field is empty
    | UseValidEmail       // the address does not end with "@gmail.com"
    | PasswordsDiffer     // the confirmation differs from the new password
    | PasswordTooShort    // the new password has fewer than six characters
    | NoUsername          // the sign-in answer carries no username
    | SignInFailed        // the sign-in request was refused
    | SignedIn
    | ResetNoUserId       // the reset answer carries no user id
    | ResetNotVerified    // the reset went through but the sign-in with the new password did not
    | ResetFailedWith(message: string)
    | ResetAndSignedIn

  datatype Flow = Flow(requests: seq<Request>, outcome: Outcome)

  const ResetFallbackMessage := "Failed to reset password. Please try again."

  /** The page's sign-in submit, given the answer the sign-in request gets. */
  function SignIn(email: string, password: string, reply: Result<Session>): (r: Flow)
    ensures r.requests != [] <==> email != "" && password != "" && IsGmail(email)
    ensures r.requests != [] ==> r.requests == [LoginRequest(email, password)]
    ensures (email == "" || password == "") ==> r.outcome == FillAllFields
    ensures email != "" && password != "" && !IsGmail(email) ==> r.outcome == UseValidEmail
    ensures r.outcome == SignedIn <==> r.requests != [] && reply.Ok? && reply.value.username != ""
  {
    if email == "" || password == "" then Flow([], FillAllFields)
    else if !IsGmail(email) then Flow([], UseValidEmail)
    else
      var sent := [LoginRequest(email, password)];
      match reply
      case Err(_) => Flow(sent, SignInFailed)
      case Ok(session) => if session.username == "" then Flow(sent, NoUsername) else Flow(sent, SignedIn)
  }

  /** The checks the reset form runs before it sends anything. */
  predicate ResetChecksPass(email: string, newPassword: string, confirm: string) {
    && email != "" && newPassword != "" && confirm != ""
    && IsGmail(email)
    && newPassword == confirm
    && |newPassword| >= 6
  }

  /** The page's reset submit, given the answers the reset request and the
      follow-up sign-in get. A refused reset shows the error's message, or a
      fallback when it has none. */
  function ResetFlow(email: string, newPassword: string, confirm: string,
                     resetReply: Result<ResetReply>, loginReply: Result<Session>): (r: Flow)
    ensures r.requests != [] <==> ResetChecksPass(email, newPassword, confirm)
    // the checks run in this order
    ensures (email == "" || newPassword == "" || confirm == "") ==> r.outcome == FillAllFields
    ensures email != "" && newPassword != "" && confirm != "" && !IsGmail(email) ==> r.outcome == UseValidEmail
    ensures email != "" && newPassword != "" && confirm != "" && IsGmail(email) && newPassword != confirm ==>
      r.outcome == PasswordsDiffer
    ensures email != "" && IsGmail(email) && newPassword == confirm && 0 < |newPassword| < 6 ==>
      r.outcome == PasswordTooShort
    // no sign-in is tried unless the reset answer names the user
    ensures LoginRequest(email, newPassword) in r.requests <==>
      ResetChecksPass(email, newPassword, confirm) && resetReply.Ok? && resetReply.value.userId != ""
    ensures r.requests != [] ==> r.requests[0] == ResetRequest(email, newPassword)
    ensures r.outcome == ResetAndSignedIn <==>
      ResetChecksPass(email, newPassword, confirm) && resetReply.Ok? && resetReply.value.userId != "" && loginReply.Ok?
  {
    if email == "" || newPassword == "" || confirm == "" then Flow([], FillAllFields)
    else if !IsGmail(email) then Flow([], UseValidEmail)
    else if newPassword != confirm then Flow([], PasswordsDiffer)
    else if |newPassword| < 6 then Flow([], PasswordTooShort)
    else
      var reset := [ResetRequest(email, newPassword)];
      match resetReply
      case Err(e) => Flow(reset, ResetFailedWith(if e.message != "" then e.message else ResetFallbackMessage))
      case Ok(answer) =>
        if answer.userId == "" then Flow(reset, ResetNoUserId)
        else
          var both := reset + [LoginRequest(email, newPassword)];
          match loginReply
          case Err(_) => Flow(both, ResetNotVerified)
          case Ok(_) => Flow(both, ResetAndSignedIn)
  }

  /** What the page receives for a request: the response body, or the error. */
  function BodyOf<T>(r: Result<Reply<T>>): (b: Result<T>)
    ensures b.Ok? <==> r.Ok?
    ensures b.Ok? ==> b.value == r.value.body
    ensures b.Err? ==> b.error == r.error
  {
    match r
    case Ok(reply) => Ok(reply.body)
    case Err(e) => Err(e)
  }

  /** Whatever the form lets through also passes the server's first three
      reset checks: the server can then only refuse for an unknown account or
      a failed save. */
  lemma ClientResetChecksCoverServer(s: Store, email: string, newPassword: string, confirm: string, hash: Hasher)
    requires ResetChecksPass(email, newPassword, confirm)
    ensures var r := ResetPassword(s, email, newPassword, hash);
      r.Err? ==> r.error in {ResetNoUser, ResetFailed}
  {
  }

  /** A newly registered account signs in from the page with the password it
      was registered with. */
  lemma {:induction false} RegisteredUserSignsIn(s: Store, freshId: Id, name: string, username: string, email: string,
                                                 password: string, hash: Hasher, matches: Matcher, sign: Signer)
    requires FreshUserId(s, freshId)
    requires matches(password, hash(password))
    requires IsGmail(email)
    requires RegisterUser(s, freshId, name, username, email, password, hash, sign).Ok?
    ensures var s' := RegisterUser(s, freshId, name, username, email, password, hash, sign).value.store;
      SignIn(email, password, LoginUser(s', email, password, matches, sign)).outcome == SignedIn
  {
    RegisterThenLogin(s, freshId, name, username, email, password, hash, matches, sign);
  }

  /** End to end: when the server resets the password of an account with an
      id, the page signs in with the new password. */
  lemma {:induction false} ResetSignsIn(s: Store, email: string, newPassword: string, hash: Hasher,
                                        matches: Matcher, sign: Signer)
    requires matches(newPassword, hash(newPassword))
    requires ResetPassword(s, email, newPassword, hash).Ok?
    requires ResetPassword(s, email, newPassword, hash).value.body.userId != ""
    ensures var rep := ResetPassword(s, email, newPassword, hash);
      var flow := ResetFlow(email, newPassword, newPassword, BodyOf(rep),
                            LoginUser(rep.value.store, email, newPassword, matches, sign));
      && flow.outcome == ResetAndSignedIn
      && flow.requests == [ResetRequest(email, newPassword), LoginRequest(email, newPassword)]
  {
    ResetThenLogin(s, email, newPassword, hash, matches, sign);
  }
}
