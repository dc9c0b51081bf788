/** The sign-up page: validation of the four fields, the sign-up request
    and what its outcome leads to. */
module SignUp {
  import opened Wrappers
  import opened Text
  import opened EmailPatterns
  import opened AuthForms
  import SignIn

  /** The message for the confirmation field, if any. */
  function ConfirmError(password: string, confirm: string): (e: Option<string>)
    ensures confirm == "" ==> e == Some("Please confirm your password")
    ensures confirm != "" ==> (e.None? <==> confirm == password)
    ensures confirm != "" && e.Some? ==> e.value == "Passwords do not match"
  {
    if confirm == "" then Some("Please confirm your password")
    else if password != confirm then Some("Passwords do not match")
    else None
  }

  /** `validate`'s `newErrors`: the name is required once trimmed (blank
      exactly when all whitespace), the rest as on the sign-in forms. */
  function SignUpErrors(name: string, email: string, password: string, confirm: string): (errors: map<AuthField, string>)
    ensures Name in errors <==> AllSpace(name)
    ensures Name in errors ==> errors[Name] == "Name is required"
    ensures Email in errors <==> EmailError(email).Some?
    ensures Email in errors ==> errors[Email] == EmailError(email).value
    ensures Password in errors <==> PasswordError(password).Some?
    ensures Password in errors ==> errors[Password] == PasswordError(password).value
    ensures ConfirmPassword in errors <==> ConfirmError(password, confirm).Some?
    ensures ConfirmPassword in errors ==> errors[ConfirmPassword] == ConfirmError(password, confirm).value
  {
    var named := Entry(Name, if AllSpace(name) then Some("Name is required") else None);
    var login := LoginErrors(email, password);
    var confirmed := Entry(ConfirmPassword, ConfirmError(password, confirm));
    assert named.Keys !! login.Keys && login.Keys !! confirmed.Keys && named.Keys !! confirmed.Keys;
    named + login + confirmed
  }

  predicate SignUpAcceptable(name: string, email: string, password: string, confirm: string) {
    !AllSpace(name) && LoginAcceptable(email, password) && confirm == password
  }

  /** `validate()` returns true exactly for acceptable forms. */
  lemma SignUpErrorsAccept(name: string, email: string, password: string, confirm: string)
    ensures SignUpErrors(name, email, password, confirm) == map[] <==> SignUpAcceptable(name, email, password, confirm)
  {
    var errors := SignUpErrors(name, email, password, confirm);
    if SignUpAcceptable(name, email, password, confirm) {
      assert email != "" && password != "" && confirm != "";
    }
  }

  datatype SignUpBody = SignUpBody(name: string, email: string, password: string)

  /** The outcome of the request: a response with its status and its body
      as JSON text, or a body that is not JSON or a network failure. */
  datatype Reply = Responded(ok: bool, json: string) | Unreadable

  datatype Outcome = NavigateToSignIn(email: string, password: string) | Alert(text: string)

  /** What `handleSignup` does once the request settles. */
  function AfterReply(email: string, password: string, reply: Reply): (o: Outcome)
    ensures o.NavigateToSignIn? <==> reply.Responded? && reply.ok
    ensures o.NavigateToSignIn? ==> o == NavigateToSignIn(email, password)
    ensures reply.Responded? && !reply.ok ==> o == Alert("Sign up failed: " + reply.json)
    ensures reply.Unreadable? ==> o == Alert("Something went wrong. Please try again.")
  {
    match reply
    case Responded(ok, json) => if ok then NavigateToSignIn(email, password) else Alert("Sign up failed: " + json)
    case Unreadable => Alert("Something went wrong. Please try again.")
  }

  /** The sign-in page opened from a successful sign-up starts with the
      address and the password just registered. */
  lemma SignInReceivesCredentials(name: string, email: string, password: string, confirm: string,
                                  queryEmail: Option<string>, queryPassword: Option<string>, remembered: Option<string>)
    requires SignUpAcceptable(name, email, password, confirm)
    ensures var o := AfterReply(email, password, Responded(true, "{}"));
      && SignIn.InitialEmail(Some(o.email), queryEmail, remembered) == email
      && SignIn.InitialPassword(Some(o.password), queryPassword) == password
  {
    assert password != "";
  }

  class SignUpPage {
    var name: string
    var email: string
    var password: string
    var confirmPassword: string
    var errors: map<AuthField, string>

    constructor()
      ensures name == "" && email == "" && password == "" && confirmPassword == "" && errors == map[]
    {
      name, email, password, confirmPassword := "", "", "", "";
      errors := map[];
    }

    /** `handleSignup` up to the request: the request, if one is sent. */
    method HandleSignup() returns (request: Option<SignUpBody>)
      modifies this
      ensures errors == SignUpErrors(name, email, password, confirmPassword)
      ensures name == old(name) && email == old(email) && password == old(password) && confirmPassword == old(confirmPassword)
      ensures request.Some? <==> SignUpAcceptable(name, email, password, confirmPassword)
      ensures request.Some? ==> request.value == SignUpBody(name, email, password)
    {
      errors := SignUpErrors(name, email, password, confirmPassword);
      SignUpErrorsAccept(name, email, password, confirmPassword);
      if errors != map[] {
        return None;
      }
      request := Some(SignUpBody(name, email, password));
    }
  }
}
