/** Which events the flow controller accepts, and what it tells its upstream, over every run. */
module FlowAnswers {
  import opened Optional
  import opened RealtimeProfile
  import opened FlowControl
  import opened FlowRuns
  import opened FlowHysteresis

  /** Every admission is in flight, or finished; and no enqueue was later than the clock, which never went back. */
  ghost predicate Tracked(w: World) {
    && |w.issued| == w.flow.inFlight.frames + w.finished.frames
    && (w.flow.lastInput.Some? ==> w.flow.lastInput.value <= w.clock)
  }

  lemma StepKeepsTracked(p: Profile, w: World, e: Event)
    requires Balanced(w) && Tracked(w) && Presented(w, e) && !Overflows(p, w, e) && w.clock <= e.now
    ensures Tracked(Step(p, w, e))
  {
    if e.Complete? && e.work.own { CompletionIsCovered(w, e.work); }
  }

  lemma FollowsKeepsTracked(p: Profile, w: World, v: World)
    requires Balanced(w) && Tracked(w) && FollowsHonestly(p, w, v) && w.clock <= v.clock
    ensures Tracked(v)
  {
    var e :| Presented(w, e) && !Overflows(p, w, e) && v == Step(p, w, e);
    StepKeepsTracked(p, w, e);
  }

  lemma {:induction false} RunIsTracked(p: Profile, run: seq<World>, i: nat)
    requires IsHonestRun(p, run) && MonotoneClock(run) && i < |run|
    ensures Tracked(run[i])
  {
    if i > 0 {
      RunIsTracked(p, run, i - 1);
      LoadIsConserved(p, run, i - 1);
      FollowsKeepsTracked(p, run[i - 1], run[i]);
    }
  }

  /** With this frame, everything that ever arrived still fits the counters. */
  predicate RoomToCount(w: World, m: Measurement) {
    && w.arrived.frames + 1 <= COUNTER_MAX && w.arrived.bytes + m.bytes <= COUNTER_MAX
    && w.arrived.media + m.media <= DURATION_MAX
  }

  /** The frame is among those queued, by its measurement. */
  predicate Queued(w: World, m: Measurement) {
    && w.flow.queued.frames > 0 && w.flow.queued.bytes >= m.bytes && w.flow.queued.media >= m.media
  }

  /**
   On a run with a monotone clock and within the counters: every frame is taken in, a frame is
   admitted or dropped exactly if it is among those queued and, to be dropped, the port is not
   lossless; and a frame taken in, admitted or dropped is counted as such.
   */
  lemma FramesAreAnswered(p: Profile, run: seq<World>, i: nat, m: Measurement, now: nat, n: Prediction)
    requires IsHonestRun(p, run) && MonotoneClock(run) && i < |run| && run[i].clock <= now && RoomToCount(run[i], m)
    ensures var o := Respond(p, run[i].flow, Enqueue(m, now, n));
            o.reply.Updated? && o.flow.queued == Plus(run[i].flow.queued, m)
    ensures var o := Respond(p, run[i].flow, Admit(m, now, n));
            && (o.reply.Admitted? <==> Queued(run[i], m)) && (!o.reply.Admitted? ==> o.reply.Refused?)
            && (o.reply.Admitted? ==> o.reply.work == Work(true, |run[i].issued|, m, now))
    ensures var o := Respond(p, run[i].flow, Drop(m, now, n));
            && (o.reply.Updated? <==> p.contract.guarantee.BestEffort? && Queued(run[i], m))
            && (!o.reply.Updated? ==> o.reply.Refused?)
  {
    LoadIsConserved(p, run, i);
    RunIsTracked(p, run, i);
  }

  // ---------------------------------------------------------------- what upstream is told

  function AtLeastOne(k: nat): nat {
    if k == 0 then 1 else k
  }

  /** Admissions are resumed in the normal state, limited to half in pressure and to none when critical. */
  ghost predicate TellsState(p: Profile, before: FlowState, after: FlowState, actions: seq<Action>) {
    && (ResumeAdmissions in actions <==> after.Normal?)
    && (KeepNormalBatch in actions <==> after.Normal?)
    && (forall k: nat :: LimitAdmissions(k) in actions <==>
          !after.Normal? && k == if after.Critical? then 0 else AtLeastOne(p.tuning.maxInFlight / 2))
    && (forall t: nat :: SetBatchTarget(t) in actions <==> after.Pressure? && p.tuning.maxMerge == Some(t))
    && (EmitPressure in actions <==> before.Normal? && !after.Normal?)
    && (EmitResume in actions <==> !before.Normal? && after.Normal?)
    && (AbortTheSession in actions <==> after.Critical? && p.tuning.overflow.AbortSession?)
    && (forall o :: ApplyOverflow(o) in actions <==> after.Critical? && !o.AbortSession? && p.tuning.overflow == o)
  }

  lemma ActionsTellState(p: Profile, before: FlowState, after: FlowState)
    ensures TellsState(p, before, after, ActionsOf(p, before, after))
  {
    var actions := ActionsOf(p, before, after);
    match after
    case Normal => assert actions[0] == KeepNormalBatch && actions[1] == ResumeAdmissions;
    case Pressure =>
    case Critical =>
  }

  /** Every accepted event is answered with the actions of the state it leads to. */
  lemma EventsTellState(p: Profile, f: Flow, e: Event)
    requires !Respond(p, f, e).reply.Refused?
    ensures TellsState(p, f.state, Respond(p, f, e).flow.state, Respond(p, f, e).reply.actions)
  {
    var g := RepliesAreEvaluations(p, f, e);
    ActionsTellState(p, f.state, Respond(p, f, e).flow.state);
  }
}
