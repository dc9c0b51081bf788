/** The user sign-in page: the initial field values, validation, the
    sign-in request, the tokens it stores and the remember-me switch. */
module SignIn {
  import opened Wrappers
  import opened Text
  import opened Storage
  import opened AuthForms

  /** `location.state?.email || queryEmail || getRememberedEmail()`. */
  function InitialEmail(stateEmail: Option<string>, queryEmail: Option<string>, remembered: Option<string>): (r: string)
    ensures Truthy(stateEmail) ==> r == stateEmail.value
    ensures !Truthy(stateEmail) && Truthy(queryEmail) ==> r == queryEmail.value
    ensures !Truthy(stateEmail) && !Truthy(queryEmail) ==> r == remembered.GetOr("")
  {
    if Truthy(stateEmail) then stateEmail.value
    else if Truthy(queryEmail) then queryEmail.value
    else if Truthy(remembered) then remembered.value
    else ""
  }

  /** `location.state?.password || queryPassword || ""`. */
  function InitialPassword(statePassword: Option<string>, queryPassword: Option<string>): (r: string)
    ensures Truthy(statePassword) ==> r == statePassword.value
    ensures !Truthy(statePassword) ==> r == queryPassword.GetOr("")
  {
    if Truthy(statePassword) then statePassword.value
    else if Truthy(queryPassword) then queryPassword.value
    else ""
  }

  /** Both initial values are the first truthy candidate, in the order
      navigation state, query string, storage. */
  lemma InitialValuesFirstTruthy(stateEmail: Option<string>, queryEmail: Option<string>, remembered: Option<string>,
                                 statePassword: Option<string>, queryPassword: Option<string>)
    ensures InitialEmail(stateEmail, queryEmail, remembered) == FirstTruthy([stateEmail, queryEmail, remembered])
    ensures InitialPassword(statePassword, queryPassword) == FirstTruthy([statePassword, queryPassword])
  {
    var e := [stateEmail, queryEmail, remembered];
    assert e[0] == stateEmail && e[1] == queryEmail && e[2] == remembered;
    var p := [statePassword, queryPassword];
    assert p[0] == statePassword && p[1] == queryPassword;
  }

  /** The error banner after a failed request: `detail`, then `error`,
      then `message` of the response body, then the fallback. */
  function FailureText(detail: Option<string>, error: Option<string>, message: Option<string>): (r: string)
    ensures r != ""
    ensures Truthy(detail) ==> r == detail.value
  {
    if Truthy(detail) then detail.value
    else if Truthy(error) then error.value
    else if Truthy(message) then message.value
    else InvalidCredentials
  }

  /** The banner is the first truthy candidate, in the order `detail`,
      `error`, `message`, fallback. */
  lemma FailureTextFirstTruthy(detail: Option<string>, error: Option<string>, message: Option<string>)
    ensures FailureText(detail, error, message) == FirstTruthy([detail, error, message, Some(InvalidCredentials)])
  {
    var c := [detail, error, message, Some(InvalidCredentials)];
    assert c[0] == detail && c[1] == error && c[2] == message && c[3] == Some(InvalidCredentials);
  }

  /** The outcome of the sign-in request: the response body's `access` and
      `refresh`, or a failed request with its response body's fields. */
  datatype Reply = Answered(access: Option<string>, refresh: Option<string>)
                 | Failed(detail: Option<string>, error: Option<string>, message: Option<string>)

  predicate SignedIn(reply: Reply) {
    reply.Answered? && Truthy(reply.access) && Truthy(reply.refresh)
  }

  /** What `handleSignin`'s closure captured from the render that was
      submitted: the address and the remember-me switch. The answer is
      handled with these values, whatever the fields hold by then. */
  datatype Submitted = Submitted(email: string, rememberMe: bool)

  class SignInPage {
    var email: string
    var password: string
    var errors: map<AuthField, string>
    var formError: string
    var rememberMe: bool
    var loading: bool
    var submitted: Option<Submitted>  // the request in flight (the button is disabled while loading)
    const storage: LocalStorage

    constructor(storage: LocalStorage, stateEmail: Option<string>, statePassword: Option<string>,
                queryEmail: Option<string>, queryPassword: Option<string>)
      ensures this.storage == storage
      ensures email == InitialEmail(stateEmail, queryEmail, storage.Get(RememberedEmail))
      ensures password == InitialPassword(statePassword, queryPassword)
      ensures rememberMe == Truthy(storage.Get(RememberedEmail))
      ensures errors == map[] && formError == "" && !loading && submitted == None
    {
      this.storage := storage;
      email := InitialEmail(stateEmail, queryEmail, storage.Get(RememberedEmail));
      password := InitialPassword(statePassword, queryPassword);
      rememberMe := Truthy(storage.Get(RememberedEmail));
      errors := map[];
      formError := "";
      loading := false;
      submitted := None;
    }

    /** `handleSetRememberMe`. */
    method ToggleRememberMe()
      modifies this
      ensures rememberMe == !old(rememberMe)
      ensures email == old(email) && password == old(password) && errors == old(errors)
      ensures formError == old(formError) && loading == old(loading) && submitted == old(submitted)
    {
      rememberMe := !rememberMe;
    }

    /** `handleSignin` up to the request: the request, if one is sent. */
    method HandleSignin() returns (request: Option<Credentials>)
      modifies this
      ensures formError == "" && errors == LoginErrors(email, password)
      ensures email == old(email) && password == old(password) && rememberMe == old(rememberMe)
      ensures request.Some? <==> LoginAcceptable(email, password)
      ensures request.Some? ==> request.value == Credentials(email, password) && loading
      ensures request.Some? ==> submitted == Some(Submitted(email, rememberMe))
      ensures request.None? ==> loading == old(loading) && submitted == old(submitted)
    {
      formError := "";
      errors := LoginErrors(email, password);
      LoginErrorsAccept(email, password);
      if errors != map[] {
        return None;
      }
      loading := true;
      submitted := Some(Submitted(email, rememberMe));
      request := Some(Credentials(email, password));
    }

    /** The rest of `handleSignin`, for the request in flight: with both
      tokens, store them, remember or forget the submitted address as the
      switch was when the form was submitted, and go to the dashboard (the
      page stays loading while it leaves); otherwise show the failure and
      stop loading. Nothing is stored without both tokens. */
    method OnReply(reply: Reply) returns (navigateTo: Option<string>)
      requires submitted.Some?
      modifies this, storage
      ensures email == old(email) && password == old(password) && rememberMe == old(rememberMe)
      ensures errors == old(errors) && submitted == None
      ensures SignedIn(reply) ==>
        && navigateTo == Some("/dashboard") && loading == old(loading) && formError == old(formError)
        && var sent := old(submitted).value;
           var tokens := old(storage.items)[AccessToken := reply.access.value][RefreshToken := reply.refresh.value];
           storage.items == if sent.rememberMe then tokens[RememberedEmail := sent.email] else tokens - {RememberedEmail}
      ensures !SignedIn(reply) ==> navigateTo == None && !loading && storage.items == old(storage.items)
      ensures reply.Answered? && !SignedIn(reply) ==> formError == InvalidCredentials
      ensures reply.Failed? ==> formError == FailureText(reply.detail, reply.error, reply.message)
    {
      var sent := submitted.value;
      submitted := None;
      if SignedIn(reply) {
        storage.Set(AccessToken, reply.access.value);
        storage.Set(RefreshToken, reply.refresh.value);
        if sent.rememberMe {
          storage.Set(RememberedEmail, sent.email);
        } else {
          storage.Remove(RememberedEmail);
        }
        return Some("/dashboard");
      }
      if reply.Answered? {
        formError := InvalidCredentials;
      } else {
        formError := FailureText(reply.detail, reply.error, reply.message);
      }
      loading := false;
      navigateTo := None;
    }
  }

  /** A user whose address arrives in the navigation state submits the
      form, then flips the switch and edits the address before the answer
      comes; the answer carries both tokens. What is remembered is the
      submitted address exactly when the switch was on at submit, that is
      exactly when a non-empty address was remembered before. */
  method SwitchFlippedAfterSubmit(storage: LocalStorage, email: string, password: string, edited: string)
    returns (remembered: Option<string>)
    requires LoginAcceptable(email, password)
    modifies storage
    ensures remembered == if old(Truthy(storage.Get(RememberedEmail))) then Some(email) else None
  {
    var page := new SignInPage(storage, Some(email), Some(password), None, None);
    var request := page.HandleSignin();
    page.ToggleRememberMe();
    page.email := edited;
    var navigateTo := page.OnReply(Answered(Some("access"), Some("refresh")));
    remembered := storage.Get(RememberedEmail);
  }
}
