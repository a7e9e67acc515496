/**
 * The contact page (Contact.tsx): a three-field form validated before it is
 * posted; the outcome of the post is an input to the model.
 */
module Contact {
  import opened Wrappers
  import opened Forms

  datatype Field = Name | Email | Message

  datatype ContactForm = ContactForm(name: string, email: string, message: string)

  const EmptyForm: ContactForm := ContactForm("", "", "")
  const MinMessageLength: nat := 10

  const NameRequiredText: string := "Name is required"
  const InvalidEmailText: string := "Invalid email format"
  const ShortMessageText: string := "Message must be at least 10 characters"
  const SentText: string := "Message sent successfully!"
  const FailedText: string := "Failed to send message. Please try again."
  const ErrorText: string := "An error occurred. Please try again."

  /** What the post to the form service comes back with. */
  datatype Response = Ok | NotOk | NetworkFailure

  /** The message `contactSchema` gives `field`, or None when that field passes; `isEmail` stands for the email-format check. */
  function FieldMessage(f: ContactForm, field: Field, isEmail: string -> bool): (r: Option<string>)
  {
    match field
    case Name => if Utf16Length(f.name) >= 1 then None else Some(NameRequiredText)
    case Email => if isEmail(f.email) then None else Some(InvalidEmailText)
    case Message => if Utf16Length(f.message) >= MinMessageLength then None else Some(ShortMessageText)
  }

  /** The issues `contactSchema.parse` reports, in field order. */
  function Issues(f: ContactForm, isEmail: string -> bool): (r: seq<Issue<Field>>)
    ensures |r| <= 3
  {
    IssueIf(Name, FieldMessage(f, Name, isEmail))
    + IssueIf(Email, FieldMessage(f, Email, isEmail))
    + IssueIf(Message, FieldMessage(f, Message, isEmail))
  }

  /** The form parses exactly when the name is non-empty, the email is well formed and the message has 10+ UTF-16 code units. */
  lemma ParsesIff(f: ContactForm, isEmail: string -> bool)
    ensures Issues(f, isEmail) == [] <==> f.name != "" && isEmail(f.email) && Utf16Length(f.message) >= 10
  {
  }

  /** An empty name and a message under 10 UTF-16 code units are reported with their own messages. */
  lemma NameAndMessageRules(f: ContactForm, isEmail: string -> bool)
    ensures FieldMessage(f, Name, isEmail) == None <==> f.name != ""
    ensures f.name == "" ==> FieldMessage(f, Name, isEmail) == Some("Name is required")
    ensures FieldMessage(f, Message, isEmail) == None <==> Utf16Length(f.message) >= 10
    ensures Utf16Length(f.message) < 10 ==> FieldMessage(f, Message, isEmail) == Some("Message must be at least 10 characters")
  {
  }

  /** The error map built from a failed parse holds, for every field, exactly that field's message. */
  lemma ErrorsAreFieldMessages(f: ContactForm, isEmail: string -> bool)
    ensures forall k :: LastMessage(Issues(f, isEmail), k) == FieldMessage(f, k, isEmail)
  {
    forall k
      ensures LastMessage(Issues(f, isEmail), k) == FieldMessage(f, k, isEmail)
    {
      var i1 := IssueIf(Name, FieldMessage(f, Name, isEmail));
      var i2 := IssueIf(Email, FieldMessage(f, Email, isEmail));
      var i3 := IssueIf(Message, FieldMessage(f, Message, isEmail));
      LastMessageAppend(i1, i2, k);
      LastMessageAppend(i1 + i2, i3, k);
      LastMessageIssueIf(Name, FieldMessage(f, Name, isEmail), k);
      LastMessageIssueIf(Email, FieldMessage(f, Email, isEmail), k);
      LastMessageIssueIf(Message, FieldMessage(f, Message, isEmail), k);
    }
  }

  class ContactPage {
    /** The schema's email-format check, which the model leaves abstract. */
    const isEmail: string -> bool
    var formData: ContactForm
    var errors: map<Field, string>
    /** The forms posted to the form service, oldest first. */
    var sent: seq<ContactForm>
    /** The alert dialogs shown, oldest first. */
    var alerts: seq<string>

    constructor (isEmail: string -> bool)
      ensures this.isEmail == isEmail
      ensures formData == EmptyForm && errors == map[] && sent == [] && alerts == []
    {
      this.isEmail := isEmail;
      formData := EmptyForm;
      errors := map[];
      sent := [];
      alerts := [];
    }

    /** Typing into a field: only that field changes and only its error is cleared. */
    method HandleChange(name: Field, value: string)
      modifies this
      ensures formData == match name
        case Name => old(formData).(name := value)
        case Email => old(formData).(email := value)
        case Message => old(formData).(message := value)
      ensures errors == old(errors) - {name}
      ensures sent == old(sent) && alerts == old(alerts)
    {
      formData := match name
        case Name => formData.(name := value)
        case Email => formData.(email := value)
        case Message => formData.(message := value);
      errors := errors - {name};
    }

    /**
     * Submitting: a form that does not parse records one message per failing
     * field and posts nothing; a valid form is posted, and `response` decides
     * between the success path (alert, form and errors cleared) and the two
     * failure alerts, which leave the form as typed.
     */
    method HandleSubmit(response: Response)
      modifies this
      ensures Issues(old(formData), isEmail) != [] ==>
        && (forall f :: Lookup(errors, f) == LastMessage(Issues(old(formData), isEmail), f))
        && sent == old(sent) && alerts == old(alerts) && formData == old(formData)
      ensures Issues(old(formData), isEmail) == [] ==> sent == old(sent) + [old(formData)]
      ensures Issues(old(formData), isEmail) == [] && response == Ok ==>
        alerts == old(alerts) + [SentText] && formData == EmptyForm && errors == map[]
      ensures Issues(old(formData), isEmail) == [] && response == NotOk ==>
        alerts == old(alerts) + [FailedText] && formData == old(formData) && errors == old(errors)
      ensures Issues(old(formData), isEmail) == [] && response == NetworkFailure ==>
        alerts == old(alerts) + [ErrorText] && formData == old(formData) && errors == old(errors)
    {
      var issues := Issues(formData, isEmail);
      if issues != [] {
        var newErrors := CollectFieldErrors(issues);
        errors := newErrors;
        return;
      }
      sent := sent + [formData];
      match response {
        case Ok =>
          alerts := alerts + [SentText];
          formData := EmptyForm;
          errors := map[];
        case NotOk =>
          alerts := alerts + [FailedText];
        case NetworkFailure =>
          alerts := alerts + [ErrorText];
      }
    }
  }
}
