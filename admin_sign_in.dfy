/** The administrator sign-in page: initial values, validation and the
    admin token it stores. */
module AdminSignIn {
  import opened Wrappers
  import opened Text
  import opened Storage
  import opened AuthForms

  /** The reply of the admin sign-in request: its `access`, or a failure. */
  datatype Reply = Answered(access: Option<string>) | Failed

  class AdminSignInPage {
    var email: string
    var password: string
    var errors: map<AuthField, string>
    var formError: string
    var rememberMe: bool
    const storage: LocalStorage

    /** The values come from navigation state only, else "". */
    constructor(storage: LocalStorage, stateEmail: Option<string>, statePassword: Option<string>)
      ensures this.storage == storage
      ensures email == (if Truthy(stateEmail) then stateEmail.value else "")
      ensures password == (if Truthy(statePassword) then statePassword.value else "")
      ensures errors == map[] && formError == "" && !rememberMe
    {
      this.storage := storage;
      email := if Truthy(stateEmail) then stateEmail.value else "";
      password := if Truthy(statePassword) then statePassword.value else "";
      errors := map[];
      formError := "";
      rememberMe := false;
    }

    /** `handleSetRememberMe`: the switch is shown and toggled, and read by nothing. */
    method ToggleRememberMe()
      modifies this
      ensures rememberMe == !old(rememberMe)
      ensures email == old(email) && password == old(password) && errors == old(errors) && formError == old(formError)
    {
      rememberMe := !rememberMe;
    }

    /** `handleSignin` up to the request: the request, if one is sent. */
    method HandleSignin() returns (request: Option<Credentials>)
      modifies this
      ensures formError == "" && errors == LoginErrors(email, password)
      ensures email == old(email) && password == old(password) && rememberMe == old(rememberMe)
      ensures request.Some? <==> LoginAcceptable(email, password)
      ensures request.Some? ==> request.value == Credentials(email, password)
    {
      formError := "";
      errors := LoginErrors(email, password);
      LoginErrorsAccept(email, password);
      if errors != map[] {
        return None;
      }
      request := Some(Credentials(email, password));
    }

    /** The rest of `handleSignin`: an `access` token is stored as the
      admin token and the admin dashboard opens; anything else shows the
      failure and stores nothing. */
    method OnReply(reply: Reply) returns (navigateTo: Option<string>)
      modifies this, storage
      ensures email == old(email) && password == old(password) && errors == old(errors) && rememberMe == old(rememberMe)
      ensures reply.Answered? && Truthy(reply.access) ==>
        && navigateTo == Some("/admin/dashboard") && formError == old(formError)
        && storage.items == old(storage.items)[AdminToken := reply.access.value]
      ensures !(reply.Answered? && Truthy(reply.access)) ==>
        navigateTo == None && formError == InvalidCredentials && storage.items == old(storage.items)
    {
      if reply.Answered? && Truthy(reply.access) {
        storage.Set(AdminToken, reply.access.value);
        navigateTo := Some("/admin/dashboard");
      } else {
        formError := InvalidCredentials;
        navigateTo := None;
      }
    }
  }
}
