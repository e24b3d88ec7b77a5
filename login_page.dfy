/** The sign-in page (frontend/src/pages/Login.jsx): typing into the form and the
    validation chain run before the request. */
module LoginPage {
  import opened Wrappers
  import Strings
  import Forms

  datatype LoginForm = LoginForm(email: string, password: string)

  /** The inputs, by their `name` attribute. */
  datatype LoginField = Email | Password

  /** `handleInputChange`: the named field takes the value and the error banner is
      cleared. */
  function InputChanged(f: LoginForm, error: string, name: LoginField, value: string): (r: (LoginForm, string))
    ensures r.1 == ""
    ensures name == Email ==> r.0.email == value && r.0.password == f.password
    ensures name == Password ==> r.0.password == value && r.0.email == f.email
  {
    var form := match name
      case Email => f.(email := value)
      case Password => f.(password := value);
    (form, "")
  }

  /** `validateForm`'s checks, in order. */
  function LoginChecks(f: LoginForm): (checks: seq<Forms.CheckResult>)
    ensures |checks| == 3
  {
    [ (Strings.Trim(f.email) == "", "El email es requerido"),
      (f.password == "", "La contraseña es requerida"),
      (|f.password| < 6, "La contraseña debe tener al menos 6 caracteres") ]
  }

  /** `validateForm`: the error shown, or `None` when the form is accepted. */
  function ValidateLogin(f: LoginForm): (r: Option<string>)
    ensures r.None? <==> forall i :: 0 <= i < 3 ==> !LoginChecks(f)[i].0
  {
    Forms.FirstFailure(LoginChecks(f))
  }

  /** The form is accepted exactly when the trimmed e-mail is filled and the
      password has at least six characters. */
  lemma LoginAcceptedIff(f: LoginForm)
    ensures ValidateLogin(f).None? <==> Strings.Trim(f.email) != "" && f.password != "" && |f.password| >= 6
  {
    var c := LoginChecks(f);
    if ValidateLogin(f).None? {
      assert !c[0].0 && !c[1].0 && !c[2].0;
    }
  }

  /** A blank e-mail is reported before anything about the password. */
  lemma BlankEmailReportedFirst(f: LoginForm)
    requires Strings.Trim(f.email) == ""
    ensures ValidateLogin(f) == Some("El email es requerido")
  {
    Forms.FirstFailureAt(LoginChecks(f), 0);
  }

  /** A short password is reported once the e-mail is filled. */
  lemma ShortPasswordReported(f: LoginForm)
    requires Strings.Trim(f.email) != "" && f.password != "" && |f.password| < 6
    ensures ValidateLogin(f) == Some("La contraseña debe tener al menos 6 caracteres")
  {
    var c := LoginChecks(f);
    assert !c[0].0 && !c[1].0 && c[2].0;
    Forms.FirstFailureAt(c, 2);
  }
}
