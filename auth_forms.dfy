/** The checks the sign-in, sign-up and admin sign-in forms share: a
    required e-mail address matching `\S+@\S+\.\S+` and a required password
    of at least six characters, with the forms' own messages. */
module AuthForms {
  import opened Wrappers
  import opened Text
  import opened EmailPatterns

  datatype AuthField = Name | Email | Password | ConfirmPassword

  const InvalidCredentials := "Login failed: Invalid credentials."

  /** The message `validate` records for the e-mail address, if any. The
      address is not trimmed. */
  function EmailError(email: string): (e: Option<string>)
    ensures email == "" ==> e == Some("Email is required")
    ensures email != "" ==> (e.None? <==> LooseEmail(email))
    ensures email != "" && e.Some? ==> e.value == "Email is invalid"
  {
    if email == "" then Some("Email is required")
    else if !LooseEmail(email) then Some("Email is invalid")
    else None
  }

  /** The message for the password, if any; its length is JavaScript's,
      in UTF-16 code units. */
  function PasswordError(password: string): (e: Option<string>)
    ensures password == "" ==> e == Some("Password is required")
    ensures password != "" ==> (e.None? <==> Utf16Length(password) >= 6)
    ensures password != "" && e.Some? ==> e.value == "Password must be at least 6 characters"
  {
    if password == "" then Some("Password is required")
    else if Utf16Length(password) < 6 then Some("Password must be at least 6 characters")
    else None
  }

  /** `map[f := e.value]` when there is an error, `map[]` otherwise. */
  function Entry(field: AuthField, e: Option<string>): (m: map<AuthField, string>)
    ensures field in m <==> e.Some?
    ensures m.Keys <= {field}
    ensures e.Some? ==> m[field] == e.value
  {
    if e.Some? then map[field := e.value] else map[]
  }

  /** `validate`'s `newErrors` on the two sign-in forms. */
  function LoginErrors(email: string, password: string): (errors: map<AuthField, string>)
    ensures errors.Keys <= {Email, Password}
    ensures Email in errors <==> EmailError(email).Some?
    ensures Password in errors <==> PasswordError(password).Some?
    ensures Email in errors ==> errors[Email] == EmailError(email).value
    ensures Password in errors ==> errors[Password] == PasswordError(password).value
  {
    Entry(Email, EmailError(email)) + Entry(Password, PasswordError(password))
  }

  /** What the sign-in forms accept, stated on its own. */
  predicate LoginAcceptable(email: string, password: string) {
    LooseEmail(email) && Utf16Length(password) >= 6
  }

  /** `validate()` returns true exactly for acceptable credentials. */
  lemma LoginErrorsAccept(email: string, password: string)
    ensures LoginErrors(email, password) == map[] <==> LoginAcceptable(email, password)
  {
    if LoginAcceptable(email, password) {
      assert email != "";
      assert password != "";
    }
  }

  /** The body of a sign-in request. */
  datatype Credentials = Credentials(email: string, password: string)
}
