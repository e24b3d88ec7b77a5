/** The notification list of the front end (frontend/src/components/common/Toast.jsx):
    at most five toasts, newest last, removed in two phases (marked, then dropped),
    and the loading toast that wraps a promise. Ids and timers are parameters. */
module Toast {
  import opened Wrappers

  const MaxToasts: nat := 5
  const LoadingText := "Loading..."
  const SuccessDefault := "Operation completed successfully"
  const ErrorDefault := "An error occurred"

  datatype Toast = Toast(id: real, message: string, kind: string, duration: int, isRemoving: bool)

  /** `[...prev, newToast].slice(-5)`. */
  function Appended(toasts: seq<Toast>, t: Toast): (r: seq<Toast>)
    ensures |r| == if |toasts| + 1 <= MaxToasts then |toasts| + 1 else MaxToasts
    ensures r[|r| - 1] == t
    ensures r == (toasts + [t])[|toasts| + 1 - |r|..]
  {
    var all := toasts + [t];
    if |all| <= MaxToasts then all else all[|all| - MaxToasts..]
  }

  /** Removal, phase one: the toasts with that id are marked as leaving. */
  function MarkRemoving(toasts: seq<Toast>, id: real): (r: seq<Toast>)
    ensures |r| == |toasts|
    ensures forall i :: 0 <= i < |toasts| ==>
      r[i] == if toasts[i].id == id then toasts[i].(isRemoving := true) else toasts[i]
  {
    if toasts == [] then []
    else
      var first := if toasts[0].id == id then toasts[0].(isRemoving := true) else toasts[0];
      [first] + MarkRemoving(toasts[1..], id)
  }

  /** Removal, phase two: `prev.filter(toast => toast.id !== id)`. */
  function Dropped(toasts: seq<Toast>, id: real): (r: seq<Toast>)
    ensures |r| <= |toasts|
    ensures forall x :: x in r <==> x in toasts && x.id != id
  {
    if toasts == [] then []
    else (if toasts[0].id != id then [toasts[0]] else []) + Dropped(toasts[1..], id)
  }

  /** The toast a settled promise adds: the given text or the default, shown for
      the default four seconds. */
  function OutcomeToast(succeeded: bool, text: Option<string>, freshId: real): (t: Toast)
    ensures t.id == freshId && !t.isRemoving && AutoRemoves(t)
    ensures t.kind == (if succeeded then "success" else "error")
    ensures TruthyStr(text) ==> t.message == text.value
    ensures !TruthyStr(text) ==> t.message == (if succeeded then SuccessDefault else ErrorDefault)
  {
    var fallback := if succeeded then SuccessDefault else ErrorDefault;
    Toast(freshId, if TruthyStr(text) then text.value else fallback,
      if succeeded then "success" else "error", 4000, false)
  }

  /** The toast's own timer only starts for a positive duration. */
  predicate AutoRemoves(t: Toast) {
    t.duration > 0
  }

  /** `handleRemove`: the id to remove, or nothing when the toast is already leaving. */
  function HandleRemove(t: Toast): (r: Option<real>)
    ensures r.None? <==> t.isRemoving
    ensures r.Some? ==> r.value == t.id
  {
    if t.isRemoving then None else Some(t.id)
  }

  /** Adding keeps the newest toasts in their order, at most five, the new one last;
      below the limit nothing is dropped. */
  lemma AppendedKeepsNewest(toasts: seq<Toast>, t: Toast)
    requires |toasts| <= MaxToasts
    ensures var r := Appended(toasts, t);
      |r| <= MaxToasts && t in r
      && (|toasts| < MaxToasts ==> r == toasts + [t])
      && (|toasts| == MaxToasts ==> r == toasts[1..] + [t])
  {
    var r := Appended(toasts, t);
    assert r[|r| - 1] == t;
    if |toasts| == MaxToasts {
      assert (toasts + [t])[1..] == toasts[1..] + [t];
    }
  }

  /** The list never holds more than five toasts once it has five or fewer. */
  lemma {:induction false} AppendedBounded(toasts: seq<Toast>, ts: seq<Toast>)
    requires |toasts| <= MaxToasts
    ensures |AppendAll(toasts, ts)| <= MaxToasts
    decreases |ts|
  {
    if ts != [] {
      AppendedBounded(Appended(toasts, ts[0]), ts[1..]);
    }
  }

  function AppendAll(toasts: seq<Toast>, ts: seq<Toast>): seq<Toast>
    decreases |ts|
  {
    if ts == [] then toasts else AppendAll(Appended(toasts, ts[0]), ts[1..])
  }

  /** Marking leaves every other toast alone and is undone by nothing: marking twice
      is marking once. */
  lemma MarkRemovingIdempotent(toasts: seq<Toast>, id: real)
    ensures MarkRemoving(MarkRemoving(toasts, id), id) == MarkRemoving(toasts, id)
  {
  }

  /** After both phases no toast with that id is left, and the others remain. */
  lemma RemoveBothPhases(toasts: seq<Toast>, id: real)
    ensures forall x :: x in Dropped(MarkRemoving(toasts, id), id) ==> x.id != id
    ensures forall x :: x in toasts && x.id != id ==> x in Dropped(MarkRemoving(toasts, id), id)
  {
    var marked := MarkRemoving(toasts, id);
    forall x | x in toasts && x.id != id
      ensures x in marked
    {
      var i :| 0 <= i < |toasts| && toasts[i] == x;
      assert marked[i] == x;
    }
  }

  /** Dropping an id keeps a toast of another id that ends the list at the end. */
  lemma {:induction false} DroppedKeepsLast(toasts: seq<Toast>, t: Toast, id: real)
    requires t.id != id
    ensures Dropped(toasts + [t], id) == Dropped(toasts, id) + [t]
  {
    if toasts == [] {
      assert Dropped([t], id) == [t] + Dropped([], id);
    } else {
      assert (toasts + [t])[1..] == toasts[1..] + [t];
      DroppedKeepsLast(toasts[1..], t, id);
    }
  }

  /** A settled promise, once the loading toast's exit timer has fired, leaves the
      outcome toast as the newest toast in the list and no toast with the loading id. */
  lemma SettledPromiseLeavesOutcome(toasts: seq<Toast>, loadingId: real, t: Toast)
    requires t.id != loadingId
    ensures var r := Dropped(Appended(MarkRemoving(toasts, loadingId), t), loadingId);
      r != [] && r[|r| - 1] == t && forall x :: x in r ==> x.id != loadingId
  {
    var a := Appended(MarkRemoving(toasts, loadingId), t);
    assert a == a[..|a| - 1] + [t];
    DroppedKeepsLast(a[..|a| - 1], t, loadingId);
  }

  /** The duration the convenience methods pass on: an omitted one is the default. */
  function DurationOr(duration: Option<int>): (d: int)
    ensures duration.None? ==> d == 4000
    ensures duration.Some? ==> d == duration.value
  {
    if duration.Some? then duration.value else 4000
  }

  /** The notification state of `useToast`. */
  class ToastList {
    var toasts: seq<Toast>

    constructor ()
      ensures toasts == []
    {
      toasts := [];
    }

    /** `addToast(message, type, duration)`, with `freshId` standing for the
        generated id. */
    method AddToast(message: string, kind: string, duration: int, freshId: real) returns (id: real)
      modifies this
      ensures id == freshId
      ensures toasts == Appended(old(toasts), Toast(freshId, message, kind, duration, false))
    {
      id := freshId;
      toasts := Appended(toasts, Toast(id, message, kind, duration, false));
    }

    /** `success`, `error`, `info` and `warning`: `addToast` with that kind. */
    method Notify(kind: string, message: string, duration: Option<int>, freshId: real) returns (id: real)
      modifies this
      ensures id == freshId
      ensures toasts == Appended(old(toasts), Toast(freshId, message, kind, DurationOr(duration), false))
    {
      id := AddToast(message, kind, DurationOr(duration), freshId);
    }

    /** `removeToast(id)`, first phase. */
    method StartRemoval(id: real)
      modifies this
      ensures toasts == MarkRemoving(old(toasts), id)
    {
      toasts := MarkRemoving(toasts, id);
    }

    /** `removeToast(id)`, second phase, when the exit animation's timer fires. */
    method FinishRemoval(id: real)
      modifies this
      ensures toasts == Dropped(old(toasts), id)
    {
      toasts := Dropped(toasts, id);
    }

    /** `promise(...)`, before it settles: a loading toast that never removes
        itself. */
    method PromiseStart(loading: Option<string>, freshId: real) returns (loadingId: real)
      modifies this
      ensures loadingId == freshId
      ensures toasts == Appended(old(toasts), Toast(freshId, if TruthyStr(loading) then loading.value else LoadingText, "loading", 0, false))
      ensures !AutoRemoves(toasts[|toasts| - 1])
    {
      loadingId := AddToast(if TruthyStr(loading) then loading.value else LoadingText, "loading", 0, freshId);
    }

    /** The success or error toast of a settled promise. */
    method PushOutcome(succeeded: bool, text: Option<string>, freshId: real) returns (id: real)
      modifies this
      ensures id == freshId
      ensures toasts == Appended(old(toasts), OutcomeToast(succeeded, text, freshId))
    {
      var t := OutcomeToast(succeeded, text, freshId);
      id := AddToast(t.message, t.kind, t.duration, freshId);
    }

    /** `promise(...)` when it settles: the loading toast starts leaving and one
        success or error toast is added; the outcome passes through. */
    method PromiseSettle<T>(loadingId: real, outcome: Result<T, string>, success: Option<string>,
                            failure: Option<string>, freshId: real) returns (r: Result<T, string>)
      modifies this
      ensures r == outcome
      ensures toasts == Appended(MarkRemoving(old(toasts), loadingId),
        OutcomeToast(outcome.Ok?, if outcome.Ok? then success else failure, freshId))
    {
      StartRemoval(loadingId);
      var _ := PushOutcome(outcome.Ok?, if outcome.Ok? then success else failure, freshId);
      r := outcome;
    }
  }
}
