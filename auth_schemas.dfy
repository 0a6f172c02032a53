/**
 * The login and signup validation schemas of `frontend/lib/schemas/auth.ts`. Each returns
 * the list of issues the schema reports, in schema order; a form is accepted when the list
 * is empty. The email format test is the validator library's and is a parameter here.
 * All fields are strings; a string field's checks all run, and the signup refinement runs
 * on every object whose fields are strings, whether or not a field check failed.
 */
module AuthSchemas {

  /** A validation issue: the path of the offending field and the message shown for it. */
  datatype Issue = Issue(path: seq<string>, message: string)

  const InvalidEmail: string := "Invalid email address"
  const EmailRequired: string := "Email is required"
  const LoginPasswordTooShort: string := "Password must be at least 6 characters long"
  const NameTooShort: string := "Name must be at least 2 characters"
  const SignupPasswordTooShort: string := "Password must be at least 8 characters"
  const ConfirmTooShort: string := "Confirm your password"
  const PasswordsDiffer: string := "Passwords do not match"

  const LoginPasswordMin: nat := 6
  const SignupPasswordMin: nat := 8
  const NameMin: nat := 2

  /** The issue a failed check adds, or none. */
  function Check(ok: bool, field: string, message: string): seq<Issue> {
    if ok then [] else [Issue([field], message)]
  }

  /** `loginSchema`: email well-formed and non-empty, password of at least 6 characters. */
  function LoginIssues(email: string, password: string, isEmail: string -> bool): (r: seq<Issue>)
    ensures r == [] <==> isEmail(email) && |email| >= 1 && |password| >= LoginPasswordMin
    ensures Issue(["email"], InvalidEmail) in r <==> !isEmail(email)
    ensures Issue(["email"], EmailRequired) in r <==> |email| < 1
    ensures Issue(["password"], LoginPasswordTooShort) in r <==> |password| < LoginPasswordMin
  {
    Check(isEmail(email), "email", InvalidEmail)
    + Check(|email| >= 1, "email", EmailRequired)
    + Check(|password| >= LoginPasswordMin, "password", LoginPasswordTooShort)
  }

  /** `signupSchema`: the four field checks followed by the password-match refinement. */
  function SignupIssues(name: string, email: string, password: string, confirmPassword: string,
                        isEmail: string -> bool): (r: seq<Issue>)
    ensures r == [] <==>
              |name| >= NameMin && isEmail(email) && |password| >= SignupPasswordMin
              && |confirmPassword| >= SignupPasswordMin && password == confirmPassword
    ensures Issue(["name"], NameTooShort) in r <==> |name| < NameMin
    ensures Issue(["email"], InvalidEmail) in r <==> !isEmail(email)
    ensures Issue(["password"], SignupPasswordTooShort) in r <==> |password| < SignupPasswordMin
    ensures Issue(["confirmPassword"], ConfirmTooShort) in r <==> |confirmPassword| < SignupPasswordMin
    ensures Issue(["confirmPassword"], PasswordsDiffer) in r <==> password != confirmPassword
    ensures password != confirmPassword ==> r[|r| - 1] == Issue(["confirmPassword"], PasswordsDiffer)
  {
    Check(|name| >= NameMin, "name", NameTooShort)
    + Check(isEmail(email), "email", InvalidEmail)
    + Check(|password| >= SignupPasswordMin, "password", SignupPasswordTooShort)
    + Check(|confirmPassword| >= SignupPasswordMin, "confirmPassword", ConfirmTooShort)
    + Check(password == confirmPassword, "confirmPassword", PasswordsDiffer)
  }

  /**
   * Credentials accepted at signup are accepted at login, provided the email format
   * rejects the empty string (login also demands a non-empty email, signup does not).
   */
  lemma SignupAcceptedLoginAccepted(name: string, email: string, password: string,
                                    confirmPassword: string, isEmail: string -> bool)
    requires !isEmail("")
    requires SignupIssues(name, email, password, confirmPassword, isEmail) == []
    ensures LoginIssues(email, password, isEmail) == []
  {
    assert email != "";
  }
}
