/**
 * The server action `loginAction` of `frontend/app/actions/auth.ts`: it reads the email and
 * the password from the submitted form, asks the credentials provider to sign in, and ends
 * in a thrown error or a redirect to the dashboard. The sign-in call is a parameter.
 */
module AuthActions {
  import opened Wrappers
  import opened JsString

  /** What `signIn("credentials", { redirect: false })` resolves to. */
  datatype SignInResponse = SignInResponse(ok: bool, error: Option<string>, status: int, url: Option<string>)

  /** The two ways the action ends: an `Error` thrown with a message, or `redirect(path)`. */
  datatype Outcome = Throw(message: string) | RedirectTo(path: string)

  const MissingCredentials: string := "Missing credentials"

  /** The message as the source spells it. */
  const InvalidCredentials: string := "Inavlid email or password"

  const DashboardPath: string := "/dashboard"

  /** `result?.ok`: the sign-in result is present and reports success. */
  predicate SignedIn(result: Option<SignInResponse>): (b: bool)
    ensures result.None? ==> !b
    ensures result.Some? ==> (b <==> result.value.ok)
  {
    result.Some? && result.value.ok
  }

  /**
   * `loginAction(formData)` as written. `email` and `password` are `formData.get(...)`,
   * absent when the field is missing; `signIn` is consulted only when both are non-empty.
   */
  function LoginAction(email: Option<string>, password: Option<string>,
                       signIn: (string, string) -> Option<SignInResponse>): (o: Outcome)
    ensures !Truthy(email) || !Truthy(password) ==> o == Throw(MissingCredentials)
    ensures Truthy(email) && Truthy(password) ==>
              (o == Throw(InvalidCredentials) <==> SignedIn(signIn(email.value, password.value)))
    ensures Truthy(email) && Truthy(password) && !SignedIn(signIn(email.value, password.value)) ==>
              o == RedirectTo(DashboardPath)
    ensures o.RedirectTo? ==> o.path == DashboardPath
  {
    if !Truthy(email) || !Truthy(password) then Throw(MissingCredentials)
    else if SignedIn(signIn(email.value, password.value)) then Throw(InvalidCredentials)
    else RedirectTo(DashboardPath)
  }

  /** Missing credentials are rejected before sign-in: the outcome does not depend on `signIn`. */
  lemma {:induction false} MissingCredentialsIgnoreSignIn(email: Option<string>, password: Option<string>,
                                       s1: (string, string) -> Option<SignInResponse>,
                                       s2: (string, string) -> Option<SignInResponse>)
    requires !Truthy(email) || !Truthy(password)
    ensures LoginAction(email, password, s1) == LoginAction(email, password, s2) == Throw(MissingCredentials)
  {
  }

  /**
   * The check is inverted: with non-empty credentials that the provider accepts, the action
   * throws the invalid-credentials error, and it redirects to the dashboard exactly when the
   * provider rejected them or gave no result.
   */
  lemma AcceptedCredentialsAreRejected(email: string, password: string,
                                       signIn: (string, string) -> Option<SignInResponse>)
    requires email != "" && password != ""
    ensures (LoginAction(Some(email), Some(password), signIn) == RedirectTo(DashboardPath))
            <==> !SignedIn(signIn(email, password))
  {
  }

  /**
   * `loginAction` with the check the messages call for: throw when sign-in did not succeed,
   * redirect to the dashboard when it did.
   */
  function IntendedLoginAction(email: Option<string>, password: Option<string>,
                               signIn: (string, string) -> Option<SignInResponse>): (o: Outcome)
    ensures !Truthy(email) || !Truthy(password) ==> o == Throw(MissingCredentials)
    ensures o == RedirectTo(DashboardPath) <==>
              Truthy(email) && Truthy(password) && SignedIn(signIn(email.value, password.value))
    ensures o.Throw? ==> o.message in {MissingCredentials, InvalidCredentials}
  {
    if !Truthy(email) || !Truthy(password) then Throw(MissingCredentials)
    else if !SignedIn(signIn(email.value, password.value)) then Throw(InvalidCredentials)
    else RedirectTo(DashboardPath)
  }

  /** The two versions disagree on every non-empty credential pair: one redirects where the other throws. */
  lemma {:induction false} IntendedDiffersFromWritten(email: string, password: string,
                                   signIn: (string, string) -> Option<SignInResponse>)
    requires email != "" && password != ""
    ensures IntendedLoginAction(Some(email), Some(password), signIn).RedirectTo?
            <==> LoginAction(Some(email), Some(password), signIn).Throw?
  {
  }
}
