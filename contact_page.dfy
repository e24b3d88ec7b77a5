/** The contact page's form (frontend/src/pages/Contact.jsx): typing into a field,
    the checks run before sending, and the reset after a successful send. The
    form and its errors are JavaScript objects keyed by field name. */
module ContactPage {
  import opened Wrappers
  import Strings

  const NameRequired := "Name is required"
  const EmailRequired := "Email is required"
  const EmailInvalid := "Invalid email format"
  const SubjectRequired := "Subject is required"
  const MessageRequired := "Message is required"
  const MessageTooShort := "Message must be at least 10 characters"

  /** The form's fields, by the `name` attribute of their inputs. */
  datatype Field = Name | Email | Phone | Subject | Message

  /** The form always holds its five fields. */
  predicate HasFields(form: map<Field, string>) {
    Name in form && Email in form && Phone in form && Subject in form && Message in form
  }

  /** The form as the page first shows it and as a successful send leaves it. */
  function EmptyForm(): (f: map<Field, string>)
    ensures HasFields(f) && |f.Keys| == 5
    ensures forall k :: k in f ==> f[k] == ""
  {
    map[Name := "", Email := "", Phone := "", Subject := "", Message := ""]
  }

  /** The e-mail error: required when blank after trimming, otherwise invalid when
      the untrimmed text does not match the e-mail pattern. */
  function EmailError(email: string): (r: Option<string>)
    ensures Strings.Trim(email) == "" ==> r == Some(EmailRequired)
    ensures Strings.Trim(email) != "" ==> (r == Some(EmailInvalid) <==> !Strings.MatchesEmailRegex(email))
    ensures r.None? <==> Strings.Trim(email) != "" && Strings.MatchesEmailRegex(email)
  {
    Strings.EmailShapeIffRegex(email);
    if Strings.Trim(email) == "" then Some(EmailRequired)
    else if !Strings.IsEmailShape(email) then Some(EmailInvalid)
    else None
  }

  /** The message error: required when blank, too short under ten characters
      once trimmed. */
  function MessageError(message: string): (r: Option<string>)
    ensures Strings.Trim(message) == "" ==> r == Some(MessageRequired)
    ensures Strings.Trim(message) != "" ==> (r == Some(MessageTooShort) <==> |Strings.Trim(message)| < 10)
    ensures r.None? <==> |Strings.Trim(message)| >= 10
  {
    var t := Strings.Trim(message);
    if t == "" then Some(MessageRequired) else if |t| < 10 then Some(MessageTooShort) else None
  }

  function Required(text: string, message: string): (r: Option<string>)
    ensures r.Some? <==> Strings.Trim(text) == ""
    ensures r.Some? ==> r.value == message
  {
    if Strings.Trim(text) == "" then Some(message) else None
  }

  /** The error `validateForm` records for one field; the phone is never checked. */
  function FieldError(form: map<Field, string>, f: Field): (r: Option<string>)
    requires HasFields(form)
    ensures f == Phone ==> r.None?
  {
    match f
    case Name => Required(form[Name], NameRequired)
    case Email => EmailError(form[Email])
    case Phone => None
    case Subject => Required(form[Subject], SubjectRequired)
    case Message => MessageError(form[Message])
  }

  /** `validateForm`'s error object: one entry per failing field. */
  function FormErrors(form: map<Field, string>): (r: map<Field, string>)
    requires HasFields(form)
    ensures forall f :: f in r <==> FieldError(form, f).Some?
    ensures forall f :: f in r ==> r[f] == FieldError(form, f).value
    ensures Phone !in r
  {
    map f | f in {Name, Email, Subject, Message} && FieldError(form, f).Some? :: FieldError(form, f).value
  }

  /** The form is accepted exactly when name and subject are filled, the e-mail
      matches the pattern and the message has at least ten characters. */
  lemma FormAcceptedIff(form: map<Field, string>)
    requires HasFields(form)
    ensures |FormErrors(form)| == 0 <==>
      Strings.Trim(form[Name]) != "" && Strings.Trim(form[Subject]) != ""
      && Strings.Trim(form[Email]) != "" && Strings.MatchesEmailRegex(form[Email])
      && |Strings.Trim(form[Message])| >= 10
  {
    var r := FormErrors(form);
    if |r| == 0 {
      assert Name !in r && Email !in r && Subject !in r && Message !in r;
    } else {
      var k :| k in r;
    }
  }

  /** The form a successful send leaves behind would be rejected on every
      required field. */
  lemma EmptyFormRejected()
    ensures FormErrors(EmptyForm()) ==
      map[Name := NameRequired, Email := EmailRequired, Subject := SubjectRequired, Message := MessageRequired]
  {
    var f := EmptyForm();
    assert Strings.Trim("") == "";
    var r := FormErrors(f);
    var m := map[Name := NameRequired, Email := EmailRequired, Subject := SubjectRequired, Message := MessageRequired];
    assert r.Keys == m.Keys;
  }

  /** The page's state. */
  class Page {
    var formData: map<Field, string>
    var errors: map<Field, string>
    var submitStatus: Option<string>
    var isSubmitting: bool

    predicate Valid()
      reads this
    {
      HasFields(formData)
    }

    constructor ()
      ensures Valid() && formData == EmptyForm() && errors == map[] && submitStatus.None? && !isSubmitting
    {
      formData := EmptyForm();
      errors := map[];
      submitStatus := None;
      isSubmitting := false;
    }

    /** `handleInputChange`: the named field takes the value, and its error, when
        one is shown, is blanked; nothing else changes. */
    method HandleInputChange(name: Field, value: string)
      requires Valid()
      modifies this
      ensures Valid()
      ensures formData == old(formData)[name := value]
      ensures errors == if name in old(errors) && old(errors)[name] != "" then old(errors)[name := ""] else old(errors)
      ensures submitStatus == old(submitStatus) && isSubmitting == old(isSubmitting)
    {
      formData := formData[name := value];
      if name in errors && errors[name] != "" {
        errors := errors[name := ""];
      }
    }

    /** `validateForm`: records the errors and reports whether there were none. */
    method ValidateForm() returns (ok: bool)
      requires Valid()
      modifies this
      ensures Valid() && formData == old(formData)
      ensures errors == FormErrors(formData)
      ensures ok <==> |errors| == 0
      ensures submitStatus == old(submitStatus) && isSubmitting == old(isSubmitting)
    {
      errors := FormErrors(formData);
      ok := |errors| == 0;
    }

    /** `handleSubmit`: nothing is sent unless the form passes; `outcome` is what
        the send settles to (`None` for a thrown error, otherwise its `success`
        flag). A success clears the form. */
    method HandleSubmit(outcome: Option<bool>) returns (sent: bool)
      requires Valid()
      modifies this
      ensures Valid()
      ensures errors == FormErrors(old(formData))
      ensures isSubmitting == (if sent then false else old(isSubmitting))
      ensures sent <==> |errors| == 0
      ensures !sent ==> formData == old(formData) && submitStatus == old(submitStatus)
      ensures sent && outcome == Some(true) ==> formData == EmptyForm() && submitStatus == Some("success")
      ensures sent && outcome != Some(true) ==> formData == old(formData) && submitStatus == Some("error")
    {
      ghost var form := formData;
      var ok := ValidateForm();
      if !ok {
        return false;
      }
      sent := true;
      isSubmitting := true;
      submitStatus := None;
      if outcome == Some(true) {
        submitStatus := Some("success");
        formData := EmptyForm();
      } else {
        submitStatus := Some("error");
        assert formData == form;
      }
      isSubmitting := false;
    }
  }
}
