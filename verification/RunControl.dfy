/**
 The control record of a concurrent run and the coordinator that turns it into exactly
 one outcome. Worker threads, dispatchers and external callers may request an abort at
 any moment between two coordinator steps. Nodes are topological positions.
 */
module RunControl {
  import opened Optional

  type Reason = nat

  datatype Phase = Starting | Running | Finishing | Stopping | Aborting | Finished | Aborted

  datatype Outcome = Success | Failure(reason: Reason)

  datatype Record = Record(phase: Phase, reason: Option<Reason>, successSealed: bool, result: Option<Outcome>)

  const FRESH_RECORD := Record(Starting, None, false, None)

  // ---------------------------------------------------------------- transitions of the record

  predicate AbortAccepted(r: Record) {
    r.reason.None? && !r.successSealed && r.result.None?
  }

  function AfterMarkRunning(r: Record): Record {
    if r.phase.Starting? && r.reason.None? then r.(phase := Running) else r
  }

  function AfterAbort(r: Record, reason: Reason): Record {
    if !AbortAccepted(r) then r
    else r.(reason := Some(reason), phase := if r.phase.Finishing? then Aborting else Stopping)
  }

  function AfterBeginFinishing(r: Record): Record {
    if r.reason.Some? || r.result.Some? then r
    else if r.phase.Starting? || r.phase.Running? then r.(phase := Finishing) else r
  }

  predicate FinishingBegun(r: Record) {
    r.reason.None? && r.result.None? && AfterBeginFinishing(r).phase.Finishing?
  }

  predicate Sealable(r: Record) {
    r.reason.None? && r.result.None?
  }

  /** The record behind the runtime's lock. */
  class RuntimeControl {
    var phase: Phase
    var reason: Option<Reason>
    var successSealed: bool
    var result: Option<Outcome>

    ghost function View(): (r: Record)
      reads this
    {
      Record(phase, reason, successSealed, result)
    }

    constructor ()
      ensures View() == FRESH_RECORD
    {
      phase, reason, successSealed, result := Starting, None, false, None;
    }

    method MarkRunning()
      modifies this
      ensures View() == AfterMarkRunning(old(View()))
    {
      if phase == Starting && reason.None? {
        phase := Running;
      }
    }

    method RequestAbort(why: Reason) returns (first: bool)
      modifies this
      ensures first == AbortAccepted(old(View()))
      ensures View() == AfterAbort(old(View()), why)
    {
      if reason.Some? || successSealed || result.Some? {
        return false;
      }
      reason := Some(why);
      phase := if phase == Finishing then Aborting else Stopping;
      return true;
    }

    method BeginFinishing() returns (begun: bool)
      modifies this
      ensures begun == FinishingBegun(old(View()))
      ensures View() == AfterBeginFinishing(old(View()))
    {
      if reason.Some? || result.Some? {
        return false;
      }
      if phase == Starting || phase == Running {
        phase := Finishing;
      }
      return phase == Finishing;
    }

    method SealSuccess() returns (ok: bool)
      modifies this
      ensures ok == Sealable(old(View()))
      ensures View() == old(View()).(successSealed := old(successSealed) || ok)
    {
      if reason.None? && result.None? {
        successSealed := true;
        return true;
      }
      return false;
    }

    method PublishSuccess()
      requires successSealed && reason.None?
      modifies this
      ensures View() == old(View()).(phase := Finished, result := Some(Success))
    {
      phase := Finished;
      result := Some(Success);
    }

    /** The source expects an installed reason here; `ReasonAtAborting` shows that it always finds one. */
    method BeginAborting() returns (why: Reason)
      requires reason.Some?
      modifies this
      ensures why == old(reason.value)
      ensures View() == old(View()).(phase := Aborting)
    {
      phase := Aborting;
      why := reason.value;
    }

    method PublishAbort(why: Reason)
      modifies this
      ensures View() == old(View()).(phase := Aborted, result := Some(Failure(why)))
    {
      phase := Aborted;
      result := Some(Failure(why));
    }
  }

  // ---------------------------------------------------------------- the coordinator among aborting threads

  datatype Hook = FinishHook(node: nat) | AbortHook(node: nat)

  datatype CoordinatorPc =
    | Collecting
    | CheckReason
    | Begin
    | Finish(left: nat)
    | FinishFailed(why: Reason)
    | Seal
    | PublishOk
    | BeginAbort
    | Abort(left: nat, why: Reason)
    | PublishErr(why: Reason)
    | Over

  datatype System = System(
    record: Record,
    pc: CoordinatorPc,
    hooks: seq<Hook>,
    published: seq<Outcome>)

  datatype Action = Coordinate(hookFails: bool, why: Reason) | RequestAbort(why: Reason) | MarkRunning

  /** `nodes` workers have exited with the given `prepared` set when the coordinator leaves Collecting. */
  datatype Setting = Setting(nodes: nat, prepared: set<nat>)

  function InitialSystem(): System {
    System(FRESH_RECORD, Collecting, [], [])
  }

  /** A worker whose prepare call failed has installed an abort reason before exiting. */
  predicate MayStopCollecting(env: Setting, s: System) {
    s.record.reason.Some? || forall n :: 0 <= n < env.nodes ==> n in env.prepared
  }

  function CoordinatorStep(env: Setting, s: System, hookFails: bool, why: Reason): Option<System> {
    var r := s.record;
    match s.pc
    case Collecting => if MayStopCollecting(env, s) then Some(s.(pc := CheckReason)) else None
    case CheckReason => Some(s.(pc := if r.reason.None? then Begin else BeginAbort))
    case Begin =>
      Some(s.(record := AfterBeginFinishing(r), pc := if FinishingBegun(r) then Finish(env.nodes) else BeginAbort))
    case Finish(left) =>
      if left == 0 then Some(s.(pc := Seal))
      else Some(s.(hooks := s.hooks + [FinishHook(left - 1)],
                   pc := if hookFails then FinishFailed(why) else Finish(left - 1)))
    case FinishFailed(w) => Some(s.(record := AfterAbort(r, w), pc := Seal))
    case Seal =>
      Some(s.(record := if Sealable(r) then r.(successSealed := true) else r,
              pc := if Sealable(r) then PublishOk else BeginAbort))
    case PublishOk =>
      Some(s.(record := r.(phase := Finished, result := Some(Success)), published := s.published + [Success],
              pc := Over))
    case BeginAbort =>
      if r.reason.None? then None
      else Some(s.(record := r.(phase := Aborting), pc := Abort(env.nodes, r.reason.value)))
    case Abort(left, w) =>
      if left == 0 then Some(s.(pc := PublishErr(w)))
      else Some(s.(hooks := if left - 1 in env.prepared then s.hooks + [AbortHook(left - 1)] else s.hooks,
                   pc := Abort(left - 1, w)))
    case PublishErr(w) =>
      Some(s.(record := r.(phase := Aborted, result := Some(Failure(w))), published := s.published + [Failure(w)],
              pc := Over))
    case Over => None
  }

  function Step(env: Setting, s: System, a: Action): Option<System> {
    match a
    case Coordinate(hookFails, why) => CoordinatorStep(env, s, hookFails, why)
    case RequestAbort(why) => Some(s.(record := AfterAbort(s.record, why)))
    case MarkRunning => Some(s.(record := AfterMarkRunning(s.record)))
  }

  ghost predicate IsRun(env: Setting, run: seq<System>) {
    && |run| > 0 && run[0] == InitialSystem()
    && forall i :: 0 < i < |run| ==> Follows(env, run[i - 1], run[i])
  }

  ghost predicate Follows(env: Setting, s: System, t: System) {
    exists a :: Step(env, s, a) == Some(t)
  }

  // ---------------------------------------------------------------- the hook order

  /** Finish hooks of the last `count` nodes, in reverse topological order. */
  function FinishTrail(nodes: nat, count: nat): (t: seq<Hook>)
    requires count <= nodes
    ensures |t| == count
  {
    if count == 0 then [] else FinishTrail(nodes, count - 1) + [FinishHook(nodes - count)]
  }

  /** Abort hooks of the prepared nodes among the last `count`, in reverse topological order. */
  function AbortTrail(env: Setting, count: nat): seq<Hook>
    requires count <= env.nodes
  {
    if count == 0 then []
    else if env.nodes - count in env.prepared then AbortTrail(env, count - 1) + [AbortHook(env.nodes - count)]
    else AbortTrail(env, count - 1)
  }

  /** Some finish hooks were run before the coordinator turned to `done` abort hooks. */
  ghost predicate Hooked(env: Setting, hooks: seq<Hook>, done: nat) {
    done <= env.nodes && exists f :: 0 <= f <= env.nodes && hooks == FinishTrail(env.nodes, f) + AbortTrail(env, done)
  }

  ghost predicate HooksOk(env: Setting, s: System) {
    match s.pc
    case Collecting => s.hooks == []
    case CheckReason => s.hooks == []
    case Begin => s.hooks == []
    case Finish(left) => left <= env.nodes && s.hooks == FinishTrail(env.nodes, env.nodes - left)
    case FinishFailed(_) => Hooked(env, s.hooks, 0)
    case Seal => Hooked(env, s.hooks, 0) && (s.record.reason.None? ==> s.hooks == FinishTrail(env.nodes, env.nodes))
    case PublishOk => s.hooks == FinishTrail(env.nodes, env.nodes)
    case BeginAbort => Hooked(env, s.hooks, 0)
    case Abort(left, _) => left <= env.nodes && Hooked(env, s.hooks, env.nodes - left)
    case PublishErr(_) => Hooked(env, s.hooks, env.nodes)
    case Over =>
      if s.published == [Success] then s.hooks == FinishTrail(env.nodes, env.nodes) else Hooked(env, s.hooks, env.nodes)
  }

  /** Nothing is sealed or published, and without a reason the run is starting or running. */
  predicate Undecided(r: Record) {
    r.result.None? && !r.successSealed && (r.reason.None? ==> r.phase.Starting? || r.phase.Running?)
  }

  predicate RecordOk(s: System) {
    var r := s.record;
    && (r.successSealed ==> r.reason.None?)
    && (match s.pc
        case Collecting => Undecided(r)
        case CheckReason => Undecided(r)
        case Begin => Undecided(r)
        case Finish(_) => r.result.None? && !r.successSealed
        case FinishFailed(_) => r.result.None? && !r.successSealed
        case Seal => r.result.None? && !r.successSealed
        case PublishOk => r.result.None? && r.successSealed
        case BeginAbort => r.result.None? && r.reason.Some?
        case Abort(_, w) => r.result.None? && r.reason == Some(w)
        case PublishErr(w) => r.result.None? && r.reason == Some(w)
        case Over =>
          && r.result == Some(if r.reason.Some? then Failure(r.reason.value) else Success)
          && (r.reason.None? ==> r.successSealed))
    && s.published == (if r.result.Some? then [r.result.value] else [])
  }

  /** Once a reason is installed, a success sealed or a result published, it stays. */
  predicate Later(s: System, t: System) {
    && (s.record.reason.Some? ==> t.record.reason == s.record.reason)
    && (s.record.successSealed ==> t.record.successSealed)
    && s.published <= t.published
  }

  lemma StepKeepsRecord(env: Setting, s: System, a: Action)
    requires RecordOk(s) && Step(env, s, a).Some?
    ensures RecordOk(Step(env, s, a).value) && Later(s, Step(env, s, a).value)
  {
  }

  lemma HookedStart(env: Setting, f: nat)
    requires f <= env.nodes
    ensures Hooked(env, FinishTrail(env.nodes, f), 0)
  {
    assert FinishTrail(env.nodes, f) == FinishTrail(env.nodes, f) + AbortTrail(env, 0);
  }

  lemma HookedNext(env: Setting, hooks: seq<Hook>, done: nat)
    requires done < env.nodes && Hooked(env, hooks, done)
    ensures var n := env.nodes - (done + 1);
            Hooked(env, if n in env.prepared then hooks + [AbortHook(n)] else hooks, done + 1)
  {
    var f :| 0 <= f <= env.nodes && hooks == FinishTrail(env.nodes, f) + AbortTrail(env, done);
    var last := [AbortHook(env.nodes - (done + 1))];
    assert FinishTrail(env.nodes, f) + (AbortTrail(env, done) + last) == hooks + last;
  }

  lemma FinishKeepsHooks(env: Setting, s: System, hookFails: bool, why: Reason)
    requires s.pc.Finish? && HooksOk(env, s)
    ensures HooksOk(env, CoordinatorStep(env, s, hookFails, why).value)
  {
    var left := s.pc.left;
    HookedStart(env, env.nodes - left);
    if left > 0 {
      HookedStart(env, env.nodes - left + 1);
    }
  }

  lemma CoordinatorKeepsHooks(env: Setting, s: System, hookFails: bool, why: Reason)
    requires RecordOk(s) && HooksOk(env, s) && CoordinatorStep(env, s, hookFails, why).Some?
    ensures HooksOk(env, CoordinatorStep(env, s, hookFails, why).value)
  {
    match s.pc {
      case Finish(_) => FinishKeepsHooks(env, s, hookFails, why);
      case Abort(left, _) => if left > 0 { HookedNext(env, s.hooks, env.nodes - left); }
      case CheckReason => HookedStart(env, 0);
      case Begin => HookedStart(env, 0);
      case PublishOk => assert s.published + [Success] == [Success];
      case PublishErr(w) => assert s.published + [Failure(w)] == [Failure(w)];
      case _ =>
    }
  }

  lemma StepKeepsHooks(env: Setting, s: System, a: Action)
    requires RecordOk(s) && HooksOk(env, s) && Step(env, s, a).Some?
    ensures HooksOk(env, Step(env, s, a).value)
  {
    if a.Coordinate? {
      CoordinatorKeepsHooks(env, s, a.hookFails, a.why);
    }
  }

  // ---------------------------------------------------------------- hooks are for prepared nodes only

  predicate AllPrepared(env: Setting) {
    forall n :: 0 <= n < env.nodes ==> n in env.prepared
  }

  predicate HookPrepared(env: Setting, h: Hook) {
    h.node < env.nodes && h.node in env.prepared
  }

  /** Finishing is begun only when every node was prepared, and every hook run so far was one of a prepared node. */
  ghost predicate PreparedOk(env: Setting, s: System) {
    && (s.pc.CheckReason? || s.pc.Begin? ==> s.record.reason.Some? || AllPrepared(env))
    && (s.pc.Finish? ==> s.pc.left <= env.nodes && AllPrepared(env))
    && (s.pc.Abort? ==> s.pc.left <= env.nodes)
    && forall i :: 0 <= i < |s.hooks| ==> HookPrepared(env, s.hooks[i])
  }

  lemma StepKeepsPrepared(env: Setting, s: System, a: Action)
    requires PreparedOk(env, s) && Step(env, s, a).Some?
    ensures PreparedOk(env, Step(env, s, a).value)
  {
  }

  lemma {:induction false} HooksOfPrepared(env: Setting, run: seq<System>, i: nat)
    requires IsRun(env, run) && i < |run|
    ensures PreparedOk(env, run[i])
  {
    if i > 0 {
      HooksOfPrepared(env, run, i - 1);
      FollowsKeepsPrepared(env, run[i - 1], run[i]);
    }
  }

  lemma FollowsKeepsPrepared(env: Setting, s: System, t: System)
    requires PreparedOk(env, s) && Follows(env, s, t)
    ensures PreparedOk(env, t)
  {
    var a :| Step(env, s, a) == Some(t);
    StepKeepsPrepared(env, s, a);
  }

  lemma {:induction false} RunInvariant(env: Setting, run: seq<System>, i: nat)
    requires IsRun(env, run) && i < |run|
    ensures RecordOk(run[i]) && HooksOk(env, run[i])
  {
    if i > 0 {
      RunInvariant(env, run, i - 1);
      assert Follows(env, run[i - 1], run[i]);
      var a :| Step(env, run[i - 1], a) == Some(run[i]);
      StepKeepsRecord(env, run[i - 1], a);
      StepKeepsHooks(env, run[i - 1], a);
    }
  }

  // ---------------------------------------------------------------- one outcome per run

  lemma FollowsLater(env: Setting, s: System, t: System)
    requires RecordOk(s) && Follows(env, s, t)
    ensures Later(s, t)
  {
    var a :| Step(env, s, a) == Some(t);
    StepKeepsRecord(env, s, a);
  }

  lemma NextIsLater(env: Setting, run: seq<System>, j: nat)
    requires IsRun(env, run) && 0 < j < |run|
    ensures Later(run[j - 1], run[j])
  {
    RunInvariant(env, run, j - 1);
    FollowsLater(env, run[j - 1], run[j]);
  }

  lemma {:induction false} RunMovesLater(env: Setting, run: seq<System>, i: nat, j: nat)
    requires IsRun(env, run) && i <= j < |run|
    ensures Later(run[i], run[j])
    decreases j
  {
    if i < j {
      RunMovesLater(env, run, i, j - 1);
      NextIsLater(env, run, j);
    }
  }

  /**
   Under any interleaving of abort requests the first reason never changes, a sealed success
   excludes every later abort, at most one outcome is published, and a published outcome is
   the first reason, or success when there was none.
   */
  lemma OneOutcome(env: Setting, run: seq<System>, i: nat, j: nat)
    requires IsRun(env, run) && i <= j < |run|
    ensures run[i].record.reason.Some? ==> run[j].record.reason == run[i].record.reason
    ensures run[i].record.successSealed ==> run[j].record.reason.None?
    ensures |run[j].published| <= 1 && run[i].published <= run[j].published
    ensures run[j].published != [] ==>
              run[j].published == [if run[j].record.reason.Some? then Failure(run[j].record.reason.value) else Success]
  {
    RunMovesLater(env, run, i, j);
    RunInvariant(env, run, j);
  }

  /** The coordinator's `expect` on the abort reason never fails. */
  lemma ReasonAtAborting(env: Setting, run: seq<System>, i: nat)
    requires IsRun(env, run) && i < |run| && run[i].pc.BeginAbort?
    ensures run[i].record.reason.Some?
  {
    RunInvariant(env, run, i);
  }

  /** Steps the coordinator still has to take. */
  function Ahead(env: Setting, pc: CoordinatorPc): nat {
    var tail := env.nodes + 3;
    match pc
    case Collecting => 2 * env.nodes + 9
    case CheckReason => 2 * env.nodes + 8
    case Begin => 2 * env.nodes + 7
    case Finish(left) => tail + 2 + left
    case FinishFailed(_) => tail + 2
    case Seal => tail + 1
    case PublishOk => 1
    case BeginAbort => tail
    case Abort(left, _) => left + 2
    case PublishErr(_) => 1
    case Over => 0
  }

  /** After collection the coordinator can always step, and every step brings the outcome closer. */
  lemma CoordinatorReachesOutcome(env: Setting, run: seq<System>, i: nat, hookFails: bool, why: Reason)
    requires IsRun(env, run) && i < |run| && !run[i].pc.Over?
    ensures !run[i].pc.Collecting? ==> CoordinatorStep(env, run[i], hookFails, why).Some?
    ensures CoordinatorStep(env, run[i], hookFails, why).Some? ==>
              Ahead(env, CoordinatorStep(env, run[i], hookFails, why).value.pc) < Ahead(env, run[i].pc)
    ensures run[i].published == []
  {
    RunInvariant(env, run, i);
  }

  /** At every moment the hooks run so far are finish hooks in reverse order, then abort hooks in reverse order. */
  lemma HooksFollowTopology(env: Setting, run: seq<System>, i: nat) returns (f: nat, d: nat)
    requires IsRun(env, run) && i < |run|
    ensures f <= env.nodes && d <= env.nodes && run[i].hooks == FinishTrail(env.nodes, f) + AbortTrail(env, d)
    ensures run[i].published == [Success] ==> f == env.nodes && run[i].hooks == FinishTrail(env.nodes, env.nodes)
    ensures run[i].published != [] && run[i].published != [Success] ==> d == env.nodes
  {
    RunInvariant(env, run, i);
    var s := run[i];
    f, d := 0, 0;
    match s.pc {
      case Finish(left) => f := env.nodes - left;
      case Abort(left, _) =>
        d := env.nodes - left;
        f :| 0 <= f <= env.nodes && s.hooks == FinishTrail(env.nodes, f) + AbortTrail(env, d);
      case PublishErr(_) =>
        d := env.nodes;
        f :| 0 <= f <= env.nodes && s.hooks == FinishTrail(env.nodes, f) + AbortTrail(env, d);
      case PublishOk => f := env.nodes;
      case Over =>
        if s.published == [Success] {
          f := env.nodes;
        } else {
          d := env.nodes;
          f :| 0 <= f <= env.nodes && s.hooks == FinishTrail(env.nodes, f) + AbortTrail(env, d);
        }
      case FinishFailed(_) => f :| 0 <= f <= env.nodes && s.hooks == FinishTrail(env.nodes, f) + AbortTrail(env, d);
      case Seal => f :| 0 <= f <= env.nodes && s.hooks == FinishTrail(env.nodes, f) + AbortTrail(env, d);
      case BeginAbort => f :| 0 <= f <= env.nodes && s.hooks == FinishTrail(env.nodes, f) + AbortTrail(env, d);
      case _ =>
    }
  }

  /** A finish trail visits positions nodes-1, nodes-2, ... once each. */
  lemma {:induction false} FinishTrailAt(nodes: nat, count: nat, i: nat)
    requires i < count <= nodes
    ensures FinishTrail(nodes, count)[i] == FinishHook(nodes - 1 - i)
  {
    if i < count - 1 {
      FinishTrailAt(nodes, count - 1, i);
    }
  }

  lemma AbortTrailGrows(env: Setting, count: nat)
    requires 0 < count <= env.nodes
    ensures var n := env.nodes - count; var rest := AbortTrail(env, count - 1);
            AbortTrail(env, count) == if n in env.prepared then rest + [AbortHook(n)] else rest
  {
  }

  /** An abort trail visits only prepared positions among the last `count`, strictly downwards. */
  lemma {:induction false} AbortTrailDescends(env: Setting, count: nat, t: seq<Hook>)
    requires count <= env.nodes && t == AbortTrail(env, count)
    ensures forall i :: 0 <= i < |t| ==>
              t[i].AbortHook? && env.nodes - count <= t[i].node < env.nodes && t[i].node in env.prepared
    ensures forall i, j :: 0 <= i < j < |t| ==> t[i].node > t[j].node
  {
    if count > 0 {
      AbortTrailDescends(env, count - 1, AbortTrail(env, count - 1));
      AbortTrailGrows(env, count);
    }
  }

  /** And it leaves none of them out. */
  lemma {:induction false} AbortTrailIsComplete(env: Setting, count: nat, n: nat)
    requires count <= env.nodes && env.nodes - count <= n < env.nodes && n in env.prepared
    ensures AbortHook(n) in AbortTrail(env, count)
  {
    AbortTrailGrows(env, count);
    if n > env.nodes - count { AbortTrailIsComplete(env, count - 1, n); }
  }

  /**
   Every hook runs at most once, and only for a prepared node: on every run each finish hook
   and each abort hook run so far is one of a prepared node, and no two of them are the same.
   */
  lemma HooksRunOncePerPreparedNode(env: Setting, run: seq<System>, i: nat)
    requires IsRun(env, run) && i < |run|
    ensures forall n :: FinishHook(n) in run[i].hooks || AbortHook(n) in run[i].hooks ==> n in env.prepared
    ensures forall a, b :: 0 <= a < b < |run[i].hooks| ==> run[i].hooks[a] != run[i].hooks[b]
  {
    HooksOfPrepared(env, run, i);
    forall n | FinishHook(n) in run[i].hooks || AbortHook(n) in run[i].hooks ensures n in env.prepared {
      var k :| 0 <= k < |run[i].hooks| && run[i].hooks[k].node == n;
      assert HookPrepared(env, run[i].hooks[k]);
    }
    var f, d := HooksFollowTopology(env, run, i);
    TrailsAreDistinct(env, f, d);
  }

  lemma TrailsAreDistinct(env: Setting, f: nat, d: nat)
    requires f <= env.nodes && d <= env.nodes
    ensures var hooks := FinishTrail(env.nodes, f) + AbortTrail(env, d);
            forall a, b :: 0 <= a < b < |hooks| ==> hooks[a] != hooks[b]
  {
    forall k: nat | k < f ensures FinishTrail(env.nodes, f)[k] == FinishHook(env.nodes - 1 - k) {
      FinishTrailAt(env.nodes, f, k);
    }
    AbortTrailDescends(env, d, AbortTrail(env, d));
  }
}
