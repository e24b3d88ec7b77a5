/** The change-password page (frontend/src/pages/ResetPassword.jsx): its validation
    chain, the request body, and the form after the response. */
module ResetPasswordPage {
  import opened Wrappers
  import Forms

  datatype ResetForm = ResetForm(currentPassword: string, newPassword: string, confirmNewPassword: string)

  /** The body of the change-password request. */
  datatype PasswordData = PasswordData(oldPassword: string, newPassword: string, confirmPassword: string)

  /** `/[A-Z]/.test(s)`. */
  predicate HasUpper(s: string) {
    exists i :: 0 <= i < |s| && 'A' <= s[i] <= 'Z'
  }

  /** `/[a-z]/.test(s)`. */
  predicate HasLower(s: string) {
    exists i :: 0 <= i < |s| && 'a' <= s[i] <= 'z'
  }

  /** `/\d/.test(s)`: an ASCII digit. */
  predicate HasDigit(s: string) {
    exists i :: 0 <= i < |s| && '0' <= s[i] <= '9'
  }

  /** `validateForm`'s checks, in order. */
  function ResetChecks(f: ResetForm): (checks: seq<Forms.CheckResult>)
    ensures |checks| == 7
  {
    var p := f.newPassword;
    [ (f.currentPassword == "", "Current password is required"),
      (p == "", "New password is required"),
      (|p| < 8, "New password must be at least 8 characters"),
      (f.currentPassword == p, "New password must be different from current password"),
      (f.confirmNewPassword == "", "You must confirm your new password"),
      (p != f.confirmNewPassword, "New passwords do not match"),
      (!HasUpper(p) || !HasLower(p) || !HasDigit(p), "Password must contain uppercase, lowercase and numbers") ]
  }

  /** `validateForm`: the error shown, or `None` when the form is accepted. */
  function ValidateReset(f: ResetForm): (r: Option<string>)
    ensures r.None? <==> forall i :: 0 <= i < 7 ==> !ResetChecks(f)[i].0
  {
    Forms.FirstFailure(ResetChecks(f))
  }

  /** The form is accepted exactly when every check passes. */
  lemma ResetAcceptedIff(f: ResetForm)
    ensures ValidateReset(f).None? <==>
      f.currentPassword != "" && |f.newPassword| >= 8 && f.currentPassword != f.newPassword
      && f.newPassword == f.confirmNewPassword
      && HasUpper(f.newPassword) && HasLower(f.newPassword) && HasDigit(f.newPassword)
  {
    var c := ResetChecks(f);
    if ValidateReset(f).None? {
      assert !c[0].0 && !c[1].0 && !c[2].0 && !c[3].0;
      assert !c[4].0 && !c[5].0 && !c[6].0;
    }
  }

  /** An eight-character password of letters and digits that differs from the
      current one passes without any special character. */
  lemma NoSpecialCharacterNeeded()
    ensures ValidateReset(ResetForm("old", "Abcdefg1", "Abcdefg1")).None?
  {
    var p := "Abcdefg1";
    assert HasUpper(p) by { assert 'A' <= p[0] <= 'Z'; }
    assert HasLower(p) by { assert 'a' <= p[1] <= 'z'; }
    assert HasDigit(p) by { assert '0' <= p[7] <= '9'; }
    assert "old" != p by { assert |"old"| != |p|; }
    ResetAcceptedIff(ResetForm("old", p, p));
  }

  /** A mismatched confirmation is reported before a weak password. */
  lemma MismatchBeforeStrength(f: ResetForm)
    requires f.currentPassword != "" && |f.newPassword| >= 8 && f.currentPassword != f.newPassword
    requires f.confirmNewPassword != "" && f.newPassword != f.confirmNewPassword
    ensures ValidateReset(f) == Some("New passwords do not match")
  {
    var c := ResetChecks(f);
    assert !c[0].0 && !c[1].0 && !c[2].0 && !c[3].0 && !c[4].0 && c[5].0;
    Forms.FirstFailureAt(c, 5);
  }

  /** `passwordData`: the three fields under the back end's names. */
  function Payload(f: ResetForm): (d: PasswordData)
    ensures d.oldPassword == f.currentPassword && d.newPassword == f.newPassword
    ensures d.confirmPassword == f.confirmNewPassword
  {
    PasswordData(f.currentPassword, f.newPassword, f.confirmNewPassword)
  }

  /** What `handleSubmit` does with the form: rejected by a check, stopped for a
      signed-out user, or sent. */
  datatype Submission = Rejected(error: string) | NotSignedIn | Sent(data: PasswordData)

  function Submit(f: ResetForm, authenticated: bool): (r: Submission)
    ensures r.Rejected? <==> ValidateReset(f).Some?
    ensures r.Rejected? ==> r.error == ValidateReset(f).value
    ensures r.NotSignedIn? <==> ValidateReset(f).None? && !authenticated
    ensures r.Sent? ==> r.data == Payload(f)
  {
    var e := ValidateReset(f);
    if e.Some? then Rejected(e.value)
    else if !authenticated then NotSignedIn
    else Sent(Payload(f))
  }

  /** Every request sent carries a new password that passed all checks. */
  lemma SentPasswordIsStrong(f: ResetForm, authenticated: bool)
    requires Submit(f, authenticated).Sent?
    ensures var d := Submit(f, authenticated).data;
      |d.newPassword| >= 8 && d.newPassword != d.oldPassword && d.newPassword == d.confirmPassword
      && HasUpper(d.newPassword) && HasLower(d.newPassword) && HasDigit(d.newPassword)
  {
    ResetAcceptedIff(f);
  }

  /** The form once the response arrives: cleared on success, kept otherwise. */
  function AfterResponse(f: ResetForm, success: bool): (r: ResetForm)
    ensures success ==> r == ResetForm("", "", "")
    ensures !success ==> r == f
  {
    if success then ResetForm("", "", "") else f
  }

  /** A cleared form is rejected at the first check. */
  lemma ClearedFormRejected(f: ResetForm)
    ensures ValidateReset(AfterResponse(f, true)) == Some("Current password is required")
  {
    Forms.FirstFailureAt(ResetChecks(ResetForm("", "", "")), 0);
  }
}
