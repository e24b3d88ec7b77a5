/** The early-return validation chains of the sign-in, sign-up and password pages:
    checks run in order and the first one that fails is the error shown. */
module Forms {
  import opened Wrappers

  /** A check is whether it failed and the message shown when it does. */
  type CheckResult = (bool, string)

  /** The message of the first failed check, or `None` when every check passes
      (the chain reaches `return true`). */
  function FirstFailure(checks: seq<CheckResult>): (r: Option<string>)
    ensures r.None? <==> forall i :: 0 <= i < |checks| ==> !checks[i].0
    ensures r.Some? ==> exists i :: 0 <= i < |checks| && checks[i].0 && checks[i].1 == r.value
  {
    if checks == [] then None
    else if checks[0].0 then Some(checks[0].1)
    else
      var rest := FirstFailure(checks[1..]);
      assert forall i :: 1 <= i < |checks| ==> checks[i] == checks[1..][i - 1];
      rest
  }

  /** The check reported is the earliest failing one: later failures are never
      shown while an earlier check fails. */
  lemma {:induction false} FirstFailureAt(checks: seq<CheckResult>, i: nat)
    requires i < |checks| && checks[i].0
    requires forall j :: 0 <= j < i ==> !checks[j].0
    ensures FirstFailure(checks) == Some(checks[i].1)
  {
    if i > 0 {
      assert !checks[0].0;
      assert checks[1..][i - 1] == checks[i];
      forall j | 0 <= j < i - 1
        ensures !checks[1..][j].0
      {
        assert checks[1..][j] == checks[j + 1];
      }
      FirstFailureAt(checks[1..], i - 1);
    }
  }
}
