/** The password-recovery page (frontend/src/pages/ForgotPassword.jsx): the e-mail
    check and the two guards before the reset request is sent. */
module ForgotPasswordPage {
  import opened Wrappers
  import Strings

  const EmailRequired := "El email es requerido"
  const EmailInvalid := "Por favor ingresa un email válido"

  /** `validateEmail`: the pattern `^[^\s@]+@[^\s@]+\.[^\s@]+$`, tested on the
      untrimmed text. */
  function ValidateEmail(email: string): (r: bool)
    ensures r <==> Strings.MatchesEmailRegex(email)
    ensures r <==> Strings.IsEmailShape(email)
  {
    Strings.EmailShapeIffRegex(email);
    Strings.IsEmailShape(email)
  }

  /** `handleSubmit`'s guards: the error shown, or `None` when the request is
      sent. */
  function SubmitError(email: string): (r: Option<string>)
    ensures email == "" ==> r == Some(EmailRequired)
    ensures email != "" && !Strings.MatchesEmailRegex(email) ==> r == Some(EmailInvalid)
    ensures r.None? <==> email != "" && Strings.MatchesEmailRegex(email)
  {
    if email == "" then Some(EmailRequired)
    else if !ValidateEmail(email) then Some(EmailInvalid)
    else None
  }

  /** The request goes out exactly for the addresses the pattern accepts: the
      emptiness guard never rejects one the pattern would let through. */
  lemma RequestSentIff(email: string)
    ensures SubmitError(email).None? <==> Strings.MatchesEmailRegex(email)
  {
    if Strings.MatchesEmailRegex(email) {
      var i, j :| Strings.SplitsAsEmail(email, i, j);
    }
  }

  /** `handleInputChange`: the new text replaces the e-mail and the error is
      cleared. */
  function InputChanged(email: string, error: string, value: string): (r: (string, string))
    ensures r == (value, "")
  {
    (value, "")
  }
}
