/** The contact form on the profile page: per-field validation, editing a
    field, and sending the trimmed message. */
module ContactForm {
  import opened Wrappers
  import opened Text
  import opened EmailPatterns

  datatype Field = Name | Email | Subject | Message

  datatype Fields = Fields(name: string, email: string, subject: string, message: string)

  const Blank := Fields("", "", "", "")
  const SendFailed := "Failed to send message. Please try again later."

  function Get(f: Fields, field: Field): string {
    match field
    case Name => f.name
    case Email => f.email
    case Subject => f.subject
    case Message => f.message
  }

  function Put(f: Fields, field: Field, value: string): (r: Fields)
    ensures Get(r, field) == value
    ensures forall other :: other != field ==> Get(r, other) == Get(f, other)
  {
    match field
    case Name => f.(name := value)
    case Email => f.(email := value)
    case Subject => f.(subject := value)
    case Message => f.(message := value)
  }

  /** The error `validate` records for one field, if any. A trimmed value
      is empty exactly when the value is all whitespace (`Text.Trim`). */
  function FieldError(f: Fields, field: Field): (e: Option<string>)
    ensures AllSpace(Get(f, field)) ==> e.Some?
    ensures e.Some? ==> e.value != ""
    ensures field == Email && e.None? ==> ContactEmail(f.email)
    ensures field == Message && e.None? ==> Utf16Length(Trim(f.message)) >= 10
  {
    match field
    case Name => if AllSpace(f.name) then Some("Name is required") else None
    case Email =>
      if AllSpace(f.email) then Some("Email is required")
      else if !ContactEmail(f.email) then Some("Please enter a valid email address")
      else None
    case Subject => if AllSpace(f.subject) then Some("Subject is required") else None
    case Message =>
      if AllSpace(f.message) then Some("Message is required")
      else if Utf16Length(Trim(f.message)) < 10 then Some("Message must be at least 10 characters")
      else None
  }

  /** `validate`'s `newErrors`: one message for each field that fails. */
  function Validate(f: Fields): (errors: map<Field, string>)
    ensures forall field :: field in errors <==> FieldError(f, field).Some?
    ensures forall field :: field in errors ==> errors[field] == FieldError(f, field).value
  {
    map field | field in {Name, Email, Subject, Message} && FieldError(f, field).Some? :: FieldError(f, field).value
  }

  /** What the form accepts, stated on its own: a name and a subject that
      are not blank, an address the pattern accepts, and at least ten
      UTF-16 code units of message once trimmed. */
  predicate Acceptable(f: Fields) {
    && !AllSpace(f.name) && !AllSpace(f.subject)
    && ContactEmail(f.email)
    && Utf16Length(Trim(f.message)) >= 10
  }

  /** `validate()` returns true exactly for acceptable forms. */
  lemma ValidateAccepts(f: Fields)
    ensures Validate(f) == map[] <==> Acceptable(f)
  {
    var noErrors := forall field :: FieldError(f, field).None?;
    assert Validate(f) == map[] <==> noErrors by {
      if !noErrors {
        var field :| FieldError(f, field).Some?;
        assert field in Validate(f);
      }
    }
    if Acceptable(f) {
      ContactImpliesNotBlank(f.email);
      assert Trim(f.message) != "";
      assert FieldError(f, Message).None?;
    }
    if noErrors {
      assert FieldError(f, Name).None? && FieldError(f, Subject).None?;
      assert FieldError(f, Email).None?;
      assert FieldError(f, Message).None?;
    }
  }

  lemma ContactImpliesNotBlank(s: string)
    requires ContactEmail(s)
    ensures !AllSpace(s)
  {
    ContactEmailUnpadded(s);
  }

  /** The body of the request: all four fields trimmed. */
  function Trimmed(f: Fields): Fields {
    Fields(Trim(f.name), Trim(f.email), Trim(f.subject), Trim(f.message))
  }

  /** The address sent is the address checked. */
  lemma SentEmailIsChecked(f: Fields)
    requires Acceptable(f)
    ensures Trimmed(f).email == f.email
  {
    ContactEmailUnpadded(f.email);
  }

  /** The server's answer: a reply whose `message` or `error` may be
      present, or a failed request whose response may carry either. */
  datatype Reply = Answered(message: Option<string>, error: Option<string>)
                 | Failed(errorField: Option<string>, messageField: Option<string>)

  /** The error banner after a reply that is not a success. */
  function FailureText(reply: Reply): (r: string)
    requires !(reply.Answered? && Truthy(reply.message))
    ensures reply.Answered? ==> r == OrElse(reply.error, Some(SendFailed)).value
    ensures reply.Failed? ==> r == OrElse(reply.errorField, OrElse(reply.messageField, Some(SendFailed))).value
    ensures r != ""
  {
    match reply
    case Answered(_, error) => if Truthy(error) then error.value else SendFailed
    case Failed(error, message) => if Truthy(error) then error.value else if Truthy(message) then message.value else SendFailed
  }

  class Contact {
    var form: Fields
    var errors: map<Field, string>
    var loading: bool
    var success: bool
    var error: string

    constructor()
      ensures form == Blank && errors == map[] && !loading && !success && error == ""
    {
      form := Blank;
      errors := map[];
      loading := false;
      success := false;
      error := "";
    }

    /** `handleChange(field)`: sets the field, clears that field's error
      and no other, and clears both banners. */
    method HandleChange(field: Field, value: string)
      modifies this
      ensures form == Put(old(form), field, value)
      ensures errors == old(errors) - {field}
      ensures !success && error == "" && loading == old(loading)
    {
      form := Put(form, field, value);
      if field in errors {
        errors := errors - {field};
      }
      success := false;
      error := "";
    }

    /** `handleSubmit` up to the request: the request, if one is sent. */
    method HandleSubmit() returns (request: Option<Fields>)
      modifies this
      ensures errors == Validate(old(form)) && form == old(form)
      ensures !success && error == ""
      ensures request.Some? <==> Acceptable(form)
      ensures request.Some? ==> request.value == Trimmed(form) && loading
      ensures request.None? ==> loading == old(loading)
    {
      error := "";
      success := false;
      errors := Validate(form);
      ValidateAccepts(form);
      if errors != map[] {
        return None;
      }
      loading := true;
      request := Some(Trimmed(form));
    }

    /** The rest of `handleSubmit`, once the request settles. */
    method OnReply(reply: Reply)
      modifies this
      ensures !loading && errors == old(errors)
      ensures reply.Answered? && Truthy(reply.message) ==> success && form == Blank && error == old(error)
      ensures !(reply.Answered? && Truthy(reply.message)) ==>
        error == FailureText(reply) && form == old(form) && success == old(success)
    {
      if reply.Answered? && Truthy(reply.message) {
        success := true;
        form := Blank;
      } else {
        error := FailureText(reply);
      }
      loading := false;
    }
  }
}
