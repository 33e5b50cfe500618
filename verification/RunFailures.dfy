/** Where the outcome of a concurrent run comes from: finish hooks that failed, and aborts requested from outside. */
module RunFailures {
  import opened Optional
  import opened RunControl

  ghost predicate Acted(env: Setting, run: seq<System>, acts: seq<Action>, i: nat)
    requires i < |acts| && |run| == |acts| + 1
  {
    Step(env, run[i], acts[i]) == Some(run[i + 1])
  }

  /** A run together with the action that was taken in each of its states. */
  ghost predicate IsTrace(env: Setting, run: seq<System>, acts: seq<Action>) {
    && |run| == |acts| + 1 && run[0] == InitialSystem()
    && forall i: nat {:trigger Acted(env, run, acts, i)} :: i < |acts| ==> Acted(env, run, acts, i)
  }

  lemma TraceIsRun(env: Setting, run: seq<System>, acts: seq<Action>)
    requires IsTrace(env, run, acts)
    ensures IsRun(env, run)
  {
    forall i | 0 < i < |run| ensures Follows(env, run[i - 1], run[i]) { assert Acted(env, run, acts, i - 1); }
  }

  lemma TraceGrows(env: Setting, run: seq<System>, acts: seq<Action>, a: Action, t: System)
    requires IsTrace(env, run, acts) && Step(env, run[|run| - 1], a) == Some(t)
    ensures IsTrace(env, run + [t], acts + [a])
  {
    forall i: nat | i < |acts| + 1 ensures Acted(env, run + [t], acts + [a], i) {
      if i < |acts| { assert Acted(env, run, acts, i); }
    }
  }

  // ---------------------------------------------------------------- events

  /** The coordinator calls a finish hook, and it fails with this reason. */
  predicate HookFailedAt(run: seq<System>, acts: seq<Action>, j: nat, why: Reason)
    requires |run| == |acts| + 1
  {
    j < |acts| && run[j].pc.Finish? && run[j].pc.left > 0 && acts[j] == Coordinate(true, why)
  }

  /** An abort is requested, and it is the first: no reason is installed, no success sealed, no result published. */
  predicate RequestedAt(run: seq<System>, acts: seq<Action>, i: nat, why: Reason)
    requires |run| == |acts| + 1
  {
    && i < |acts| && acts[i] == RequestAbort(why)
    && run[i].record.reason.None? && !run[i].record.successSealed && run[i].record.result.None?
  }

  // ---------------------------------------------------------------- a failed hook stops the finishing

  /** The failure is being reported, or a reason is installed and no further finish hook will be called. */
  predicate Stopped(s: System) {
    || s.pc.FinishFailed?
    || (s.record.reason.Some? && (s.pc.Seal? || s.pc.BeginAbort? || s.pc.Abort? || s.pc.PublishErr? || s.pc.Over?))
  }

  /** Beyond the first `base` hooks there are abort hooks only. */
  predicate OnlyAborts(hooks: seq<Hook>, base: nat) {
    base <= |hooks| && forall k :: base <= k < |hooks| ==> hooks[k].AbortHook?
  }

  lemma StopLasts(env: Setting, s: System, a: Action, t: System, base: nat)
    requires RecordOk(s) && Stopped(s) && OnlyAborts(s.hooks, base) && Step(env, s, a) == Some(t)
    ensures Stopped(t) && OnlyAborts(t.hooks, base)
  {
  }

  lemma StopsAfterFailure(env: Setting, s: System, a: Action, t: System, why: Reason)
    requires s.pc.Finish? && s.pc.left > 0 && a == Coordinate(true, why) && Step(env, s, a) == Some(t)
    ensures Stopped(t) && OnlyAborts(t.hooks, |s.hooks| + 1)
  {
  }

  lemma StaysStopped(env: Setting, run: seq<System>, acts: seq<Action>, i: nat, base: nat)
    requires IsTrace(env, run, acts) && i < |acts| && Stopped(run[i]) && OnlyAborts(run[i].hooks, base)
    ensures Stopped(run[i + 1]) && OnlyAborts(run[i + 1].hooks, base)
  {
    TraceIsRun(env, run, acts);
    RunInvariant(env, run, i);
    assert Acted(env, run, acts, i);
    StopLasts(env, run[i], acts[i], run[i + 1], base);
  }

  lemma {:induction false} FailedHookStops(env: Setting, run: seq<System>, acts: seq<Action>, j: nat, n: nat,
                                           why: Reason)
    requires IsTrace(env, run, acts) && HookFailedAt(run, acts, j, why) && j < n < |run|
    ensures Stopped(run[n]) && OnlyAborts(run[n].hooks, |run[j].hooks| + 1)
    decreases n - j
  {
    if n == j + 1 {
      assert Acted(env, run, acts, j);
      StopsAfterFailure(env, run[j], acts[j], run[n], why);
    } else {
      FailedHookStops(env, run, acts, j, n - 1, why);
      StaysStopped(env, run, acts, n - 1, |run[j].hooks| + 1);
    }
  }

  /** At most one finish hook fails in a run. */
  lemma OneHookFails(env: Setting, run: seq<System>, acts: seq<Action>, j: nat, k: nat, why: Reason, other: Reason)
    requires IsTrace(env, run, acts) && HookFailedAt(run, acts, j, why) && HookFailedAt(run, acts, k, other)
    ensures j == k && why == other
  {
    if j < k { FailedHookStops(env, run, acts, j, k, why); }
    if k < j { FailedHookStops(env, run, acts, k, j, other); }
  }

  // ---------------------------------------------------------------- every reason has a cause

  lemma ReportHasHook(env: Setting, s: System, a: Action, t: System)
    requires Step(env, s, a) == Some(t) && t.pc.FinishFailed?
    ensures s.pc == t.pc || (s.pc.Finish? && s.pc.left > 0 && a == Coordinate(true, t.pc.why))
  {
  }

  lemma {:induction false} ReportedHookFailed(env: Setting, run: seq<System>, acts: seq<Action>, n: nat)
    returns (j: nat)
    requires IsTrace(env, run, acts) && n < |run| && run[n].pc.FinishFailed?
    ensures j < n && HookFailedAt(run, acts, j, run[n].pc.why)
  {
    assert Acted(env, run, acts, n - 1);
    ReportHasHook(env, run[n - 1], acts[n - 1], run[n]);
    if run[n - 1].pc == run[n].pc {
      j := ReportedHookFailed(env, run, acts, n - 1);
    } else {
      j := n - 1;
    }
  }

  lemma ReasonNeedsCause(env: Setting, s: System, a: Action, t: System)
    requires Step(env, s, a) == Some(t) && t.record.reason.Some?
    ensures || s.record.reason == t.record.reason
            || (a == RequestAbort(t.record.reason.value)
                && s.record.reason.None? && !s.record.successSealed && s.record.result.None?)
            || s.pc == FinishFailed(t.record.reason.value)
  {
  }

  /** Every installed reason was the first to be requested from outside, or is that of a failed finish hook. */
  lemma {:induction false} ReasonHasCause(env: Setting, run: seq<System>, acts: seq<Action>, n: nat) returns (j: nat)
    requires IsTrace(env, run, acts) && n < |run| && run[n].record.reason.Some?
    ensures j < n
    ensures var why := run[n].record.reason.value; RequestedAt(run, acts, j, why) || HookFailedAt(run, acts, j, why)
  {
    assert Acted(env, run, acts, n - 1);
    ReasonNeedsCause(env, run[n - 1], acts[n - 1], run[n]);
    var why := run[n].record.reason.value;
    if run[n - 1].record.reason == run[n].record.reason {
      j := ReasonHasCause(env, run, acts, n - 1);
    } else if RequestedAt(run, acts, n - 1, why) {
      j := n - 1;
    } else {
      j := ReportedHookFailed(env, run, acts, n - 1);
    }
  }

  lemma RequestInstalls(env: Setting, run: seq<System>, acts: seq<Action>, i: nat, n: nat, why: Reason)
    requires IsTrace(env, run, acts) && RequestedAt(run, acts, i, why) && i < n < |run|
    ensures run[n].record.reason.Some?
  {
    assert Acted(env, run, acts, i);
    TraceIsRun(env, run, acts);
    RunMovesLater(env, run, i + 1, n);
  }

  // ---------------------------------------------------------------- the outcome

  /** The run's outcome is this failure, which is that of the hook, or was installed from outside in step `i`. */
  predicate ToldBy(run: seq<System>, acts: seq<Action>, n: nat, why: Reason, told: Reason, i: nat)
    requires |run| == |acts| + 1 && n < |run|
  {
    i < n && run[n].published == [Failure(told)] && (told == why || RequestedAt(run, acts, i, told))
  }

  /**
   A finish hook that fails fails the run: no finish hook is called after it, and the outcome is
   a failure with the hook's reason, unless an abort requested from outside came first.
   */
  lemma FailedHookFailsRun(env: Setting, run: seq<System>, acts: seq<Action>, j: nat, n: nat, why: Reason)
    requires IsTrace(env, run, acts) && HookFailedAt(run, acts, j, why) && j < n < |run|
    ensures OnlyAborts(run[n].hooks, |run[j].hooks| + 1)
    ensures run[n].published != [] ==> exists told: Reason, i: nat :: ToldBy(run, acts, n, why, told, i)
  {
    TraceIsRun(env, run, acts);
    RunInvariant(env, run, n);
    FailedHookStops(env, run, acts, j, n, why);
    if run[n].published != [] {
      var i := ReasonHasCause(env, run, acts, n);
      var told := run[n].record.reason.value;
      if HookFailedAt(run, acts, i, told) { OneHookFails(env, run, acts, j, i, why, told); }
      assert ToldBy(run, acts, n, why, told, i);
    }
  }

  /** No finish hook has failed and no abort been installed from outside. */
  ghost predicate Undisturbed(run: seq<System>, acts: seq<Action>, n: nat)
    requires |run| == |acts| + 1
  {
    forall j: nat, why: Reason :: j < n ==> !HookFailedAt(run, acts, j, why) && !RequestedAt(run, acts, j, why)
  }

  /** A run that is over succeeded exactly if no finish hook failed and no abort was installed from outside. */
  lemma SuccessIff(env: Setting, run: seq<System>, acts: seq<Action>, n: nat)
    requires IsTrace(env, run, acts) && n < |run| && run[n].pc.Over?
    ensures run[n].published == [Success] <==> Undisturbed(run, acts, n)
    ensures run[n].published != [Success] ==>
              exists told: Reason, i: nat :: i < n && run[n].published == [Failure(told)]
                && (RequestedAt(run, acts, i, told) || HookFailedAt(run, acts, i, told))
  {
    TraceIsRun(env, run, acts);
    RunInvariant(env, run, n);
    if run[n].record.reason.Some? {
      var told := run[n].record.reason.value;
      var i := ReasonHasCause(env, run, acts, n);
      assert run[n].published == [Failure(told)];
      assert RequestedAt(run, acts, i, told) || HookFailedAt(run, acts, i, told);
    } else {
      forall j: nat, why: Reason | j < n ensures !HookFailedAt(run, acts, j, why) && !RequestedAt(run, acts, j, why) {
        NothingInstalled(env, run, acts, j, n, why);
      }
    }
  }

  lemma NothingInstalled(env: Setting, run: seq<System>, acts: seq<Action>, j: nat, n: nat, why: Reason)
    requires IsTrace(env, run, acts) && j < n < |run| && run[n].record.reason.None? && !run[n].pc.FinishFailed?
    ensures !HookFailedAt(run, acts, j, why) && !RequestedAt(run, acts, j, why)
  {
    if HookFailedAt(run, acts, j, why) { FailedHookStops(env, run, acts, j, n, why); }
    if RequestedAt(run, acts, j, why) { RequestInstalls(env, run, acts, j, n, why); }
  }
}
