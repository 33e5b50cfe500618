/**
 From the threads of a concurrent run to its outcome: once every worker has exited, the
 coordinator may stop collecting, and its remaining steps publish exactly one outcome.
 */
module RunOutcome {
  import opened Optional
  import RuntimeModel
  import RuntimeTheorems
  import opened RunControl
  import opened RunFailures

  /** What the coordinator has collected when every worker has exited. */
  function SettingOf(net: RuntimeModel.Net, s: RuntimeModel.State): Setting
    requires RuntimeModel.WellFormed(net) && RuntimeModel.Shaped(net, s)
  {
    Setting(net.nodes, set n: nat | n < net.nodes && s.workers[n].prepared)
  }

  /** The threads and the coordinator share one control record. */
  predicate SameRecord(s: RuntimeModel.State, c: System) {
    s.ctl.aborted <==> c.record.reason.Some?
  }

  /** Every worker exited: each was prepared, or an abort reason is installed. */
  lemma CollectionEnds(net: RuntimeModel.Net, run: seq<RuntimeModel.State>, i: nat, c: System)
    requires RuntimeModel.WellFormed(net) && RuntimeModel.IsRun(net, run) && i < |run|
    requires RuntimeModel.Shaped(net, run[i]) && RuntimeTheorems.AllExited(run[i]) && SameRecord(run[i], c)
    ensures MayStopCollecting(SettingOf(net, run[i]), c)
  {
    var env := SettingOf(net, run[i]);
    forall n | 0 <= n < env.nodes && c.record.reason.None? ensures n in env.prepared {
      if !run[i].workers[n].prepared {
        RuntimeTheorems.UnpreparedMeansAborted(net, run, i, n);
        assert false;
      }
    }
  }

  function Last(run: seq<System>): System
    requires |run| > 0
  {
    run[|run| - 1]
  }

  /** No reason is installed and none is about to be. */
  predicate OnCourse(s: System) {
    && s.record.reason.None? && s.record.result.None? == !s.pc.Over?
    && !s.pc.FinishFailed? && !s.pc.BeginAbort? && !s.pc.Abort? && !s.pc.PublishErr?
  }

  lemma StaysOnCourse(env: Setting, s: System, why: Reason)
    requires RecordOk(s) && OnCourse(s) && CoordinatorStep(env, s, false, why).Some?
    ensures OnCourse(CoordinatorStep(env, s, false, why).value)
  {
  }

  /** One more step of the coordinator. */
  lemma CoordinatorSteps(env: Setting, run: seq<System>, acts: seq<Action>, hookFails: bool, why: Reason)
    returns (longer: seq<System>, more: seq<Action>)
    requires IsTrace(env, run, acts) && !Last(run).pc.Over?
    requires Last(run).pc.Collecting? ==> MayStopCollecting(env, Last(run))
    ensures |longer| == |run| + 1 && run <= longer && acts <= more && IsTrace(env, longer, more)
    ensures !Last(longer).pc.Collecting? && Ahead(env, Last(longer).pc) < Ahead(env, Last(run).pc)
    ensures Last(run).record.reason.Some? ==> Last(longer).record.reason == Last(run).record.reason
    ensures OnCourse(Last(run)) && !hookFails ==> OnCourse(Last(longer))
  {
    TraceIsRun(env, run, acts);
    CoordinatorReachesOutcome(env, run, |run| - 1, hookFails, why);
    RunInvariant(env, run, |run| - 1);
    var a := Coordinate(hookFails, why);
    var t := CoordinatorStep(env, Last(run), hookFails, why).value;
    longer, more := run + [t], acts + [a];
    assert Step(env, Last(run), a) == Some(t);
    TraceGrows(env, run, acts, a, t);
    StepKeepsRecord(env, Last(run), a);
    if OnCourse(Last(run)) && !hookFails { StaysOnCourse(env, Last(run), why); }
  }

  /** Whatever the hooks answer, the coordinator reaches its end within `Ahead` steps. */
  lemma {:induction false} CoordinatorEnds(env: Setting, run: seq<System>, acts: seq<Action>, fails: nat -> bool,
                                           why: Reason)
    returns (longer: seq<System>, more: seq<Action>)
    requires IsTrace(env, run, acts) && (Last(run).pc.Collecting? ==> MayStopCollecting(env, Last(run)))
    ensures run <= longer && acts <= more && IsTrace(env, longer, more) && Last(longer).pc.Over?
    ensures |longer| - |run| <= Ahead(env, Last(run).pc)
    ensures Last(run).record.reason.Some? ==> Last(longer).record.reason == Last(run).record.reason
    ensures OnCourse(Last(run)) && (forall n :: !fails(n)) ==> OnCourse(Last(longer))
    decreases Ahead(env, Last(run).pc)
  {
    if Last(run).pc.Over? {
      longer, more := run, acts;
    } else {
      var next, nextActs := CoordinatorSteps(env, run, acts, fails(|run|), why);
      longer, more := CoordinatorEnds(env, next, nextActs, fails, why);
    }
  }

  /**
   The outcome of a concurrent run: when all threads have exited and the coordinator still
   collects, its own steps end with one published outcome: the abort reason if there is one;
   otherwise success exactly if, over the whole run, no finish hook failed and no abort was
   installed from outside, and else a failure that tells such a reason.
   */
  lemma ExitedRunHasOutcome(net: RuntimeModel.Net, run: seq<RuntimeModel.State>, i: nat, control: seq<System>,
                            acts: seq<Action>, fails: nat -> bool, why: Reason)
    returns (longer: seq<System>, more: seq<Action>)
    requires RuntimeModel.WellFormed(net) && RuntimeModel.IsRun(net, run) && i < |run|
    requires RuntimeModel.Shaped(net, run[i]) && RuntimeTheorems.AllExited(run[i])
    requires IsTrace(SettingOf(net, run[i]), control, acts)
    requires Last(control).pc.Collecting? && SameRecord(run[i], Last(control))
    ensures control <= longer && acts <= more && IsTrace(SettingOf(net, run[i]), longer, more)
    ensures |longer| - |control| <= 2 * net.nodes + 9 && |Last(longer).published| == 1
    ensures run[i].ctl.aborted ==> Last(longer).published == [Failure(Last(control).record.reason.value)]
    ensures !run[i].ctl.aborted && (forall n :: !fails(n)) ==> Last(longer).published == [Success]
    ensures Last(longer).published == [Success] <==> Undisturbed(longer, more, |more|)
    ensures Last(longer).published != [Success] ==>
              exists told: Reason, k: nat :: Last(longer).published == [Failure(told)]
                && (RequestedAt(longer, more, k, told) || HookFailedAt(longer, more, k, told))
  {
    var env := SettingOf(net, run[i]);
    CollectionEnds(net, run, i, Last(control));
    TraceIsRun(env, control, acts);
    RunInvariant(env, control, |control| - 1);
    longer, more := CoordinatorEnds(env, control, acts, fails, why);
    TraceIsRun(env, longer, more);
    RunInvariant(env, longer, |longer| - 1);
    SuccessIff(env, longer, more, |more|);
  }
}
