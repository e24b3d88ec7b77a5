/** The sign-up page (frontend/src/pages/SignUp.jsx): its validation chain and the
    payload sent to the back end. */
module SignUpPage {
  import opened Wrappers
  import Strings
  import Forms

  datatype SignUpForm = SignUpForm(
    firstName: string,
    lastName: string,
    email: string,
    password: string,
    confirmPassword: string,
    phone: string)

  /** The body of the sign-up request; `phone` is `None` for `null`. */
  datatype SignupData = SignupData(
    firstName: string,
    lastName: string,
    email: string,
    password: string,
    confirmPassword: string,
    phone: Option<string>)

  const NameRequired := "El nombre es requerido"
  const LastNameRequired := "El apellido es requerido"
  const EmailRequired := "El email es requerido"
  const EmailInvalid := "Por favor ingresa un email válido"
  const PasswordRequired := "La contraseña es requerida"
  const PasswordTooShort := "La contraseña debe tener al menos 6 caracteres"
  const ConfirmationRequired := "Debes confirmar tu contraseña"
  const PasswordsDiffer := "Las contraseñas no coinciden"

  /** `validateForm`'s checks, in order, given the trimmed first name, last name
      and e-mail. */
  function ChecksOn(first: string, last: string, email: string, f: SignUpForm): (checks: seq<Forms.CheckResult>)
    ensures |checks| == 8
  {
    [ (first == "", NameRequired),
      (last == "", LastNameRequired),
      (email == "", EmailRequired),
      ('@' !in f.email, EmailInvalid),
      (f.password == "", PasswordRequired),
      (|f.password| < 6, PasswordTooShort),
      (f.confirmPassword == "", ConfirmationRequired),
      (f.password != f.confirmPassword, PasswordsDiffer) ]
  }

  function SignUpChecks(f: SignUpForm): (checks: seq<Forms.CheckResult>)
    ensures |checks| == 8
  {
    ChecksOn(Strings.Trim(f.firstName), Strings.Trim(f.lastName), Strings.Trim(f.email), f)
  }

  /** `validateForm`: the error shown, or `None` when the form is accepted. */
  function ValidateSignUp(f: SignUpForm): (r: Option<string>)
    ensures r.None? <==> forall i :: 0 <= i < 8 ==> !SignUpChecks(f)[i].0
  {
    Forms.FirstFailure(SignUpChecks(f))
  }

  /** The chain passes exactly when each of its eight checks passes. */
  lemma ChecksOnPassIff(first: string, last: string, email: string, f: SignUpForm)
    ensures Forms.FirstFailure(ChecksOn(first, last, email, f)).None? <==>
      first != "" && last != "" && email != ""
      && '@' in f.email && f.password != "" && |f.password| >= 6
      && f.confirmPassword != "" && f.password == f.confirmPassword
  {
    var c := ChecksOn(first, last, email, f);
    if Forms.FirstFailure(c).None? {
      assert !c[0].0 && !c[1].0 && !c[2].0 && !c[3].0;
      assert !c[4].0 && !c[5].0 && !c[6].0 && !c[7].0;
    }
  }

  /** The form is accepted exactly when every check passes. */
  lemma SignUpAcceptedIff(f: SignUpForm)
    ensures ValidateSignUp(f).None? <==>
      Strings.Trim(f.firstName) != "" && Strings.Trim(f.lastName) != "" && Strings.Trim(f.email) != ""
      && '@' in f.email && f.password != "" && |f.password| >= 6
      && f.confirmPassword != "" && f.password == f.confirmPassword
  {
    ChecksOnPassIff(Strings.Trim(f.firstName), Strings.Trim(f.lastName), Strings.Trim(f.email), f);
  }

  /** An accepted password has at least six characters and equals its
      confirmation. */
  lemma AcceptedPassword(f: SignUpForm)
    requires ValidateSignUp(f).None?
    ensures |f.password| >= 6 && f.password == f.confirmPassword
  {
    SignUpAcceptedIff(f);
  }

  /** With both names and an e-mail filled in, an address without `@` is what is
      reported, whatever the passwords hold. */
  lemma MissingAtReportedFirst(f: SignUpForm)
    requires Strings.Trim(f.firstName) != "" && Strings.Trim(f.lastName) != ""
    requires Strings.Trim(f.email) != "" && '@' !in f.email
    ensures ValidateSignUp(f) == Some(EmailInvalid)
  {
    MissingAtOn(Strings.Trim(f.firstName), Strings.Trim(f.lastName), Strings.Trim(f.email), f);
  }

  lemma MissingAtOn(first: string, last: string, email: string, f: SignUpForm)
    requires first != "" && last != "" && email != "" && '@' !in f.email
    ensures Forms.FirstFailure(ChecksOn(first, last, email, f)) == Some(EmailInvalid)
  {
    var c := ChecksOn(first, last, email, f);
    assert !c[0].0 && !c[1].0 && !c[2].0 && c[3].0;
    Forms.FirstFailureAt(c, 3);
  }

  /** `signupData`: names and e-mail trimmed, the e-mail lower-cased, the phone
      trimmed or `null` when blank, and the confirmation included. */
  function Payload(f: SignUpForm): (d: SignupData)
    ensures d.firstName == Strings.Trim(f.firstName) && d.lastName == Strings.Trim(f.lastName)
    ensures d.email == Strings.Lower(Strings.Trim(f.email))
    ensures d.password == f.password && d.confirmPassword == f.confirmPassword
    ensures d.phone.None? <==> Strings.Trim(f.phone) == ""
    ensures d.phone.Some? ==> d.phone.value == Strings.Trim(f.phone)
  {
    var phone := Strings.Trim(f.phone);
    SignupData(Strings.Trim(f.firstName), Strings.Trim(f.lastName), Strings.Lower(Strings.Trim(f.email)),
      f.password, f.confirmPassword, if phone == "" then None else Some(phone))
  }

  /** The e-mail sent is already normalised: trimming and lower-casing it again
      changes nothing, and it holds no upper-case ASCII letter. */
  lemma PayloadEmailNormalised(f: SignUpForm)
    ensures var e := Payload(f).email;
      Strings.Lower(Strings.Trim(e)) == e && forall i :: 0 <= i < |e| ==> !('A' <= e[i] <= 'Z')
  {
    var t := Strings.Trim(f.email);
    var e := Payload(f).email;
    Strings.LowerKeepsEdges(t);
    Strings.TrimNoEdgeWhitespace(e);
    Strings.LowerIdempotent(t);
  }
}
