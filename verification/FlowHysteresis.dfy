/** The hysteresis of the flow controller over every sequence of evaluations. */
module FlowHysteresis {
  import opened Optional
  import opened RealtimeProfile
  import opened FlowControl
  import opened FlowRuns

  // ---------------------------------------------------------------- one evaluation

  /** A healthy evaluation never wants anything but the normal state. */
  lemma HealthyWantsNormal(p: Profile, q: Load, n: Prediction)
    requires Healthy(p, q, n)
    ensures Desired(p, q, n) == Normal
  {
  }

  /** At any hard limit the evaluation ends critical and admits nothing, whatever went before. */
  lemma HardLimitIsCritical(p: Profile, f: Flow, n: Prediction)
    requires HardLimit(p, f.queued)
    ensures var g := Evaluated(p, f, n);
            && g.state == Critical
            && LimitAdmissions(0) in ActionsOf(p, f.state, g.state)
            && ResumeAdmissions !in ActionsOf(p, f.state, g.state)
            && (forall k :: LimitAdmissions(k) in ActionsOf(p, f.state, g.state) ==> k == 0)
  {
    assert ActionsOf(p, f.state, Critical)[0] == LimitAdmissions(0);
  }

  /** A step leaves the gauge, the signals and the readings either untouched or freshly evaluated. */
  ghost predicate Turned(p: Profile, w: World, v: World) {
    || (v.flow.state == w.flow.state && v.flow.healthy == w.flow.healthy && v.flow.signals == w.flow.signals
        && v.emitted == w.emitted && v.readings == w.readings)
    || exists desired, healthy :: TurnedBy(p, w, v, desired, healthy)
  }

  predicate TurnedBy(p: Profile, w: World, v: World, desired: FlowState, healthy: bool) {
    var g := Turn(Gauge(w.flow.state, w.flow.healthy), desired, healthy);
    var signal := SignalOf(w.flow.state, g.state);
    && (healthy ==> desired == Normal)
    && v.flow.state == g.state && v.flow.healthy == g.healthy
    && v.readings == w.readings + [Reading(w.flow.state, g.state, healthy)]
    && v.emitted == (if signal.Some? then w.emitted + [signal.value] else w.emitted)
    && v.flow.signals == (if signal.Some? then Recorded(p, w.flow.signals, signal.value) else w.flow.signals)
  }

  predicate SameGauge(f: Flow, g: Flow) {
    g.state == f.state && g.healthy == f.healthy && g.signals == f.signals
  }

  /** Every reply that is not a refusal is an evaluation of a state with the old gauge. */
  lemma RepliesAreEvaluations(p: Profile, f: Flow, e: Event) returns (g: Flow)
    ensures SameGauge(f, g)
    ensures if Respond(p, f, e).reply.Refused? then Respond(p, f, e).flow == g
            else Respond(p, f, e).flow == Evaluated(p, g, e.n)
  {
    var o := Respond(p, f, e);
    if o.reply.Refused? { return o.flow; }
    g := o.flow.(state := f.state, healthy := f.healthy, signals := f.signals);
  }

  /** Whichever event led to it, a hard limit is answered by the critical state and admissions limited to none. */
  lemma HardLimitAfterAnyEvent(p: Profile, f: Flow, e: Event)
    requires !Respond(p, f, e).reply.Refused? && HardLimit(p, Respond(p, f, e).flow.queued)
    ensures Respond(p, f, e).flow.state == Critical && LimitAdmissions(0) in Respond(p, f, e).reply.actions
  {
    var g := RepliesAreEvaluations(p, f, e);
    HardLimitIsCritical(p, g, e.n);
  }

  lemma StepTurns(p: Profile, w: World, e: Event)
    ensures Turned(p, w, Step(p, w, e))
  {
    var v := Step(p, w, e);
    var g := RepliesAreEvaluations(p, w.flow, e);
    if !Respond(p, w.flow, e).reply.Refused? {
      var desired, healthy := Desired(p, g.queued, e.n), Healthy(p, g.queued, e.n);
      if healthy { HealthyWantsNormal(p, g.queued, e.n); }
      assert TurnedBy(p, w, v, desired, healthy);
    }
  }

  // ---------------------------------------------------------------- every run

  /** How many healthy evaluations stand at the end of the readings, skipping over escalations. */
  function Streak(rs: seq<Reading>): nat {
    if rs == [] then 0
    else
      var last := rs[|rs| - 1];
      if last.before.Normal? || last.after.Normal? then 0
      else if last.healthy then Streak(rs[..|rs| - 1]) + 1
      else if Escalates(last) then Streak(rs[..|rs| - 1])
      else 0
  }

  predicate Escalates(r: Reading) {
    r.before.Pressure? && r.after.Critical?
  }

  predicate Linked(rs: seq<Reading>, i: nat)
    requires i < |rs|
  {
    rs[i].before == if i == 0 then Normal else rs[i - 1].after
  }

  predicate NoStepDown(r: Reading) {
    r.before.Critical? ==> !r.after.Pressure?
  }

  /** A step from overload to normal comes at the third healthy evaluation of its streak. */
  predicate ResumesAtThree(rs: seq<Reading>, i: nat)
    requires i < |rs|
  {
    !rs[i].before.Normal? && rs[i].after.Normal? ==> rs[i].healthy && Streak(rs[..i]) == RESUME_SAMPLES - 1
  }

  predicate ReadingOk(rs: seq<Reading>, i: nat)
    requires i < |rs|
  {
    && Linked(rs, i) && NoStepDown(rs[i]) && ResumesAtThree(rs, i)
    && Streak(rs[..i + 1]) < RESUME_SAMPLES && (rs[i].healthy && rs[i].before.Normal? ==> rs[i].after.Normal?)
  }

  ghost predicate ReadingsOk(rs: seq<Reading>) {
    forall i: nat {:trigger ReadingOk(rs, i)} :: i < |rs| ==> ReadingOk(rs, i)
  }

  function LastState(rs: seq<Reading>): FlowState {
    if rs == [] then Normal else rs[|rs| - 1].after
  }

  ghost predicate Steady(w: World) {
    && w.flow.healthy == Streak(w.readings) < RESUME_SAMPLES
    && w.flow.state == LastState(w.readings)
    && (w.flow.state.Normal? ==> w.flow.healthy == 0)
    && ReadingsOk(w.readings)
  }

  lemma ReadingAppended(rs: seq<Reading>, r: Reading)
    requires ReadingsOk(rs) && r.before == LastState(rs) && NoStepDown(r)
    requires !r.before.Normal? && r.after.Normal? ==> r.healthy && Streak(rs) == RESUME_SAMPLES - 1
    requires Streak(rs + [r]) < RESUME_SAMPLES && (r.healthy && r.before.Normal? ==> r.after.Normal?)
    ensures ReadingsOk(rs + [r])
  {
    var all := rs + [r];
    forall i: nat | i < |all| ensures ReadingOk(all, i) {
      assert all[..i] == if i < |rs| then rs[..i] else rs;
      assert all[..i + 1] == if i < |rs| then rs[..i + 1] else all;
      if i < |rs| { assert ReadingOk(rs, i); }
    }
  }

  lemma StreakAppended(rs: seq<Reading>, r: Reading)
    ensures Streak(rs + [r]) ==
            if r.before.Normal? || r.after.Normal? then 0
            else if r.healthy then Streak(rs) + 1
            else if Escalates(r) then Streak(rs) else 0
  {
    assert (rs + [r])[..|rs|] == rs;
  }

  lemma TurnKeepsSteady(p: Profile, w: World, v: World)
    requires Steady(w) && Turned(p, w, v)
    ensures Steady(v)
  {
    if v.readings != w.readings {
      var desired, healthy :| TurnedBy(p, w, v, desired, healthy);
      var r := v.readings[|w.readings|];
      StreakAppended(w.readings, r);
      ReadingAppended(w.readings, r);
    }
  }

  /** Signals alternate, Pressure first, and the last one tells whether the port is overloaded. */
  ghost predicate Alternating(signals: seq<Signal>) {
    forall i :: 0 <= i < |signals| ==> signals[i] == if i % 2 == 0 then PressureSignal else ResumeSignal
  }

  /** The bounded history is the tail of everything emitted. */
  function Recent(signals: seq<Signal>): seq<Signal> {
    if |signals| <= SIGNAL_HISTORY_LIMIT then signals else signals[|signals| - SIGNAL_HISTORY_LIMIT..]
  }

  ghost predicate SignalsOk(p: Profile, w: World) {
    && Alternating(w.emitted)
    && (w.flow.state.Normal? <==> |w.emitted| % 2 == 0)
    && w.flow.signals == if p.contract.upstreamCanPause then Recent(w.emitted) else []
  }

  lemma TurnKeepsSignals(p: Profile, w: World, v: World)
    requires SignalsOk(p, w) && Turned(p, w, v)
    ensures SignalsOk(p, v)
  {
    if !(v.flow.state == w.flow.state && v.flow.signals == w.flow.signals && v.emitted == w.emitted) {
      var desired, healthy :| TurnedBy(p, w, v, desired, healthy);
      var signal := SignalOf(w.flow.state, v.flow.state);
      if signal.Some? && p.contract.upstreamCanPause { RecentAppended(p, w.emitted, signal.value); }
    }
  }

  lemma RecentAppended(p: Profile, emitted: seq<Signal>, signal: Signal)
    requires p.contract.upstreamCanPause
    ensures Recorded(p, Recent(emitted), signal) == Recent(emitted + [signal])
  {
  }

  lemma {:induction false} RunIsSteady(p: Profile, run: seq<World>, i: nat)
    requires IsRun(p, run) && i < |run|
    ensures Steady(run[i]) && SignalsOk(p, run[i])
  {
    if i > 0 {
      RunIsSteady(p, run, i - 1);
      FollowsTurns(p, run[i - 1], run[i]);
      TurnKeepsSteady(p, run[i - 1], run[i]);
      TurnKeepsSignals(p, run[i - 1], run[i]);
    }
  }

  lemma FollowsTurns(p: Profile, w: World, v: World)
    requires Follows(p, w, v)
    ensures Turned(p, w, v)
  {
    var e :| v == Step(p, w, e);
    StepTurns(p, w, e);
  }

  // ---------------------------------------------------------------- main results

  /** Critical never steps down to pressure, and the normal state carries no healthy samples. */
  lemma OverloadEndsOnlyInNormal(p: Profile, run: seq<World>, n: nat)
    requires IsRun(p, run) && n < |run|
    ensures forall i :: 0 <= i < |run[n].readings| && run[n].readings[i].before.Critical? ==>
              !run[n].readings[i].after.Pressure?
    ensures run[n].flow.state.Normal? ==> run[n].flow.healthy == 0
    ensures run[n].flow.healthy < RESUME_SAMPLES
  {
    RunIsSteady(p, run, n);
    forall i: nat | i < |run[n].readings| ensures NoStepDown(run[n].readings[i]) {
      assert ReadingOk(run[n].readings, i);
    }
  }

  /** Emitted signals strictly alternate, and the recorded history is their bounded tail. */
  lemma SignalsAlternate(p: Profile, run: seq<World>, n: nat)
    requires IsRun(p, run) && n < |run|
    ensures Alternating(run[n].emitted) && (run[n].flow.state.Normal? <==> |run[n].emitted| % 2 == 0)
    ensures |run[n].flow.signals| <= SIGNAL_HISTORY_LIMIT
    ensures forall i :: 0 < i < |run[n].flow.signals| ==> run[n].flow.signals[i] != run[n].flow.signals[i - 1]
  {
    RunIsSteady(p, run, n);
    var all := run[n].emitted;
    assert forall i :: 0 < i < |all| ==> all[i] != all[i - 1];
    if p.contract.upstreamCanPause && |all| > SIGNAL_HISTORY_LIMIT {
      var k := |all| - SIGNAL_HISTORY_LIMIT;
      assert forall i :: 0 <= i < SIGNAL_HISTORY_LIMIT ==> Recent(all)[i] == all[k + i];
    }
  }

  /** Between `a` and `c` the port stays overloaded and only sees healthy evaluations or escalations. */
  predicate Calm(rs: seq<Reading>, a: nat, c: nat)
    requires c <= |rs|
  {
    forall i :: a <= i < c ==> !rs[i].before.Normal? && (rs[i].healthy || Escalates(rs[i]))
  }

  /** A streak of k has k healthy readings in a calm stretch at the end. */
  lemma {:induction false} StreakStretch(rs: seq<Reading>) returns (a: nat)
    requires Streak(rs) > 0
    ensures a < |rs| && rs[a].healthy && Calm(rs, a, |rs|) && Streak(rs[..a]) == Streak(rs) - CountHealthy(rs, a)
    ensures CountHealthy(rs, a) == Streak(rs)
  {
    var rest := rs[..|rs| - 1];
    var last := rs[|rs| - 1];
    if last.healthy && Streak(rest) == 0 {
      a := |rs| - 1;
      assert CountHealthy(rest, a) == 0;
    } else {
      a := StreakStretch(rest);
      assert forall i :: a <= i < |rest| ==> rs[i] == rest[i];
      assert Calm(rs, a, |rest|);
      assert rest[..a] == rs[..a];
    }
  }

  function CountHealthy(rs: seq<Reading>, a: nat): nat {
    if |rs| <= a then 0
    else CountHealthy(rs[..|rs| - 1], a) + (if rs[|rs| - 1].healthy then 1 else 0)
  }

  /**
   Every resume is the third healthy evaluation of one overload: a stretch that starts at a
   healthy reading, never leaves overload, contains nothing but healthy readings and
   escalations, and holds exactly three healthy ones, the resuming one last.
   */
  lemma ResumeNeedsThreeHealthy(p: Profile, run: seq<World>, n: nat, c: nat) returns (a: nat)
    requires IsRun(p, run) && n < |run| && c < |run[n].readings|
    requires !run[n].readings[c].before.Normal? && run[n].readings[c].after.Normal?
    ensures a < c && run[n].readings[a].healthy && run[n].readings[c].healthy
    ensures Calm(run[n].readings, a, c + 1)
    ensures CountHealthy(run[n].readings[..c + 1], a) == RESUME_SAMPLES
  {
    RunIsSteady(p, run, n);
    var rs := run[n].readings;
    assert ReadingOk(rs, c);
    a := StreakStretch(rs[..c]);
    assert rs[..c + 1][..c] == rs[..c];
    assert forall i :: a <= i < c ==> rs[i] == rs[..c][i];
  }

  /** The converse: three healthy evaluations in a row always leave the port normal at one of them. */
  lemma ThreeHealthyResume(p: Profile, run: seq<World>, n: nat, i: nat)
    requires IsRun(p, run) && n < |run| && i + 2 < |run[n].readings|
    requires run[n].readings[i].healthy && run[n].readings[i + 1].healthy && run[n].readings[i + 2].healthy
    ensures run[n].readings[i].after.Normal? || run[n].readings[i + 1].after.Normal?
            || run[n].readings[i + 2].after.Normal?
  {
    RunIsSteady(p, run, n);
    var rs := run[n].readings;
    assert ReadingOk(rs, i) && ReadingOk(rs, i + 1) && ReadingOk(rs, i + 2);
    assert rs[..i + 1] == rs[..i] + [rs[i]] && rs[..i + 2] == rs[..i + 1] + [rs[i + 1]]
      && rs[..i + 3] == rs[..i + 2] + [rs[i + 2]];
    StreakAppended(rs[..i], rs[i]);
    StreakAppended(rs[..i + 1], rs[i + 1]);
    StreakAppended(rs[..i + 2], rs[i + 2]);
  }
}
