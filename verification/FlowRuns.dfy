/** What holds on every run of the adaptive flow controller. */
module FlowRuns {
  import opened Optional
  import opened RealtimeProfile
  import opened FlowControl

  datatype Event =
    | Enqueue(m: Measurement, now: nat, n: Prediction)
    | Admit(m: Measurement, now: nat, n: Prediction)
    | Complete(work: Work, now: nat, n: Prediction)
    | Drop(m: Measurement, now: nat, n: Prediction)
    | Sample(now: nat, n: Prediction)

  function Respond(p: Profile, f: Flow, e: Event): Outcome {
    match e
    case Enqueue(m, now, n) => AfterEnqueue(p, f, m, now, n)
    case Admit(m, now, n) => AfterAdmission(p, f, m, now, n)
    case Complete(w, now, n) => AfterCompletion(p, f, w, now, n)
    case Drop(m, _, n) => AfterDrop(p, f, m, n)
    case Sample(_, n) => Settle(p, f, f, n)
  }

  /** One evaluation, as seen from outside. */
  datatype Reading = Reading(before: FlowState, after: FlowState, healthy: bool)

  /**
   The controller in its world: the works it issued and which of them are still held by
   somebody, the clock, the totals of everything that arrived, finished or was stranded by a
   completion refused for its clock, every signal ever emitted and every evaluation ever made.
   */
  datatype World = World(
    flow: Flow,
    issued: seq<Work>,
    held: set<nat>,
    clock: nat,
    arrived: Load,
    finished: Load,
    stranded: Load,
    emitted: seq<Signal>,
    readings: seq<Reading>)

  const FRESH := World(START, [], {}, 0, EMPTY, EMPTY, EMPTY, [], [])

  function Plus(l: Load, m: Measurement): Load {
    Load(l.frames + 1, l.bytes + m.bytes, l.media + m.media)
  }

  /** What the evaluation of a step looked at: the state before, the queue after the bookkeeping. */
  function ReadingOf(p: Profile, f: Flow, g: Flow, n: Prediction): Reading {
    Reading(f.state, g.state, Healthy(p, g.queued, n))
  }

  function Step(p: Profile, w: World, e: Event): World {
    var o := Respond(p, w.flow, e);
    var signal := SignalOf(w.flow.state, o.flow.state);
    w.(flow := o.flow,
       clock := e.now,
       issued := if o.reply.Admitted? then w.issued + [o.reply.work] else w.issued,
       held := if o.reply.Admitted? then w.held + {o.reply.work.id}
               else if e.Complete? && e.work.own then w.held - {e.work.id} else w.held,
       arrived := if e.Enqueue? && !o.reply.Refused? then Plus(w.arrived, e.m) else w.arrived,
       finished := if e.Complete? && !o.reply.Refused? then Plus(w.finished, e.work.measurement) else w.finished,
       stranded := if e.Complete? && o.reply == Refused(ClockMovedBackwards) then Plus(w.stranded, e.work.measurement)
                   else w.stranded,
       emitted := if signal.Some? then w.emitted + [signal.value] else w.emitted,
       readings := if o.reply.Refused? then w.readings else w.readings + [ReadingOf(p, w.flow, o.flow, e.n)])
  }

  /** Any event at all, whatever it is answered. */
  ghost predicate Follows(p: Profile, w: World, v: World) {
    exists e :: v == Step(p, w, e)
  }

  ghost predicate IsRun(p: Profile, run: seq<World>) {
    && |run| > 0 && run[0] == FRESH
    && forall i :: 0 < i < |run| ==> Follows(p, run[i - 1], run[i])
  }

  /** A work of this controller is presented by whoever holds it, once. */
  predicate Presented(w: World, e: Event) {
    e.Complete? && e.work.own ==> e.work.id in w.held && e.work.id < |w.issued| && e.work == w.issued[e.work.id]
  }

  predicate Overflows(p: Profile, w: World, e: Event) {
    Respond(p, w.flow, e).reply == Refused(CounterOverflow)
  }

  /** An event whose work is presented by its holder and that overflows no counter; the clock may do anything. */
  ghost predicate FollowsHonestly(p: Profile, w: World, v: World) {
    exists e :: Presented(w, e) && !Overflows(p, w, e) && v == Step(p, w, e)
  }

  ghost predicate IsHonestRun(p: Profile, run: seq<World>) {
    && |run| > 0 && run[0] == FRESH
    && forall i :: 0 < i < |run| ==> FollowsHonestly(p, run[i - 1], run[i])
  }

  ghost predicate MonotoneClock(run: seq<World>) {
    forall i :: 0 < i < |run| ==> run[i - 1].clock <= run[i].clock
  }

  lemma HonestRunIsRun(p: Profile, run: seq<World>)
    requires IsHonestRun(p, run)
    ensures IsRun(p, run)
  {
    forall i | 0 < i < |run| ensures Follows(p, run[i - 1], run[i]) { assert FollowsHonestly(p, run[i - 1], run[i]); }
  }

  // ---------------------------------------------------------------- accounting

  /** The measured total of those issued works that are still active. */
  function Total(issued: seq<Work>, active: set<nat>): Load {
    if issued == [] then EMPTY
    else
      var rest := Total(issued[..|issued| - 1], active);
      if |issued| - 1 in active then Plus(rest, issued[|issued| - 1].measurement) else rest
  }

  lemma {:induction false} TotalIgnoresLater(issued: seq<Work>, active: set<nat>, id: nat)
    requires id >= |issued|
    ensures Total(issued, active + {id}) == Total(issued, active) == Total(issued, active - {id})
  {
    if issued != [] { TotalIgnoresLater(issued[..|issued| - 1], active, id); }
  }

  lemma TotalAfterIssue(issued: seq<Work>, active: set<nat>, work: Work)
    requires |issued| !in active
    ensures Total(issued + [work], active + {|issued|}) == Plus(Total(issued, active), work.measurement)
  {
    assert (issued + [work])[..|issued|] == issued;
    TotalIgnoresLater(issued, active, |issued|);
  }

  /** Every active admission is covered by the total, and taking it away leaves the rest. */
  lemma {:induction false} TotalAfterReturn(issued: seq<Work>, active: set<nat>, id: nat)
    requires id < |issued| && id in active
    ensures Total(issued, active) == Plus(Total(issued, active - {id}), issued[id].measurement)
  {
    var rest := issued[..|issued| - 1];
    if id == |issued| - 1 {
      TotalIgnoresLater(rest, active, id);
    } else {
      TotalAfterReturn(rest, active, id);
      assert rest[id] == issued[id];
    }
  }

  /** One load is the sum of two others, in frames, bytes and media. */
  predicate Sums(l: Load, a: Load, b: Load) {
    l.frames == a.frames + b.frames && l.bytes == a.bytes + b.bytes && l.media == a.media + b.media
  }

  predicate SumsFour(l: Load, a: Load, b: Load, c: Load, d: Load) {
    && l.frames == a.frames + b.frames + c.frames + d.frames
    && l.bytes == a.bytes + b.bytes + c.bytes + d.bytes
    && l.media == a.media + b.media + c.media + d.media
  }

  predicate Genuine(w: World, id: nat)
    requires id < |w.issued|
  {
    w.issued[id].own && w.issued[id].id == id
  }

  ghost predicate AllGenuine(w: World) {
    forall id: nat {:trigger Genuine(w, id)} :: id < |w.issued| ==> Genuine(w, id)
  }

  ghost predicate Balanced(w: World) {
    && |w.issued| == w.flow.nextId && w.flow.active == w.held
    && (forall id :: id in w.held ==> id < |w.issued|)
    && AllGenuine(w)
    && Sums(w.flow.inFlight, Total(w.issued, w.flow.active), w.stranded)
    && SumsFour(w.arrived, w.flow.queued, w.flow.inFlight, w.finished, w.flow.dropped)
    && w.flow.inputMedia == w.arrived.media && w.flow.completedMedia == w.finished.media
  }

  lemma GenuineStays(w: World, v: World)
    requires AllGenuine(w) && v.issued == w.issued
    ensures AllGenuine(v)
  {
    forall id: nat | id < |v.issued| ensures Genuine(v, id) { assert Genuine(w, id); }
  }

  lemma EnqueueBalances(p: Profile, w: World, e: Event)
    requires Balanced(w) && e.Enqueue? && !Overflows(p, w, e)
    ensures Balanced(Step(p, w, e))
  {
    GenuineStays(w, Step(p, w, e));
  }

  lemma AdmitBalances(p: Profile, w: World, e: Event)
    requires Balanced(w) && e.Admit? && !Overflows(p, w, e)
    ensures Balanced(Step(p, w, e))
  {
    var v := Step(p, w, e);
    if Respond(p, w.flow, e).reply.Refused? {
      GenuineStays(w, v);
    } else {
      TotalAfterIssue(w.issued, w.flow.active, Work(true, w.flow.nextId, e.m, e.now));
      forall id: nat | id < |v.issued| ensures Genuine(v, id) { assert id < |w.issued| ==> Genuine(w, id); }
    }
  }

  /** A held work always passes the completion guards, also those beyond the admission set. */
  lemma CompletionIsCovered(w: World, work: Work)
    requires Balanced(w) && work.own && work.id in w.held && work.id < |w.issued| && work == w.issued[work.id]
    ensures work.id in w.flow.active && Covers(w.flow.inFlight, work.measurement)
    ensures Sums(Take(w.flow.inFlight, work.measurement), Total(w.issued, w.flow.active - {work.id}), w.stranded)
    ensures Sums(w.flow.inFlight, Total(w.issued, w.flow.active - {work.id}), Plus(w.stranded, work.measurement))
  {
    TotalAfterReturn(w.issued, w.flow.active, work.id);
  }

  lemma CompleteBalances(p: Profile, w: World, e: Event)
    requires Balanced(w) && Presented(w, e) && e.Complete? && !Overflows(p, w, e)
    ensures Balanced(Step(p, w, e))
  {
    GenuineStays(w, Step(p, w, e));
    if e.work.own { CompletionIsCovered(w, e.work); }
  }

  lemma DropBalances(p: Profile, w: World, e: Event)
    requires Balanced(w) && (e.Drop? || e.Sample?) && !Overflows(p, w, e)
    ensures Balanced(Step(p, w, e))
  {
    GenuineStays(w, Step(p, w, e));
  }

  lemma StepBalances(p: Profile, w: World, v: World)
    requires Balanced(w) && FollowsHonestly(p, w, v)
    ensures Balanced(v)
  {
    var e :| Presented(w, e) && !Overflows(p, w, e) && v == Step(p, w, e);
    match e
    case Enqueue(_, _, _) => EnqueueBalances(p, w, e);
    case Admit(_, _, _) => AdmitBalances(p, w, e);
    case Complete(_, _, _) => CompleteBalances(p, w, e);
    case _ => DropBalances(p, w, e);
  }

  /**
   Conservation on every run without counter overflow, whatever the clock does: everything that
   arrived is queued, in flight, finished or dropped, in frames, bytes and media, and the
   in-flight totals are the sums over exactly the works still held plus what was stranded.
   */
  lemma {:induction false} LoadIsConserved(p: Profile, run: seq<World>, i: nat)
    requires IsHonestRun(p, run) && i < |run|
    ensures Balanced(run[i])
  {
    if i > 0 {
      LoadIsConserved(p, run, i - 1);
      StepBalances(p, run[i - 1], run[i]);
    }
  }

  // ---------------------------------------------------------------- what the clock does to it

  /** No work started, and no input came, later than the clock shows. */
  ghost predicate Timely(w: World) {
    && (forall id :: 0 <= id < |w.issued| ==> w.issued[id].startedAt <= w.clock)
    && (w.flow.lastInput.Some? ==> w.flow.lastInput.value <= w.clock)
  }

  lemma EventIsTimely(p: Profile, w: World, e: Event)
    requires Timely(w) && e.now >= w.clock
    ensures Timely(Step(p, w, e))
  {
  }

  lemma HeldWorkCompletes(p: Profile, w: World, e: Event)
    requires Timely(w) && Presented(w, e) && e.now >= w.clock
    ensures Step(p, w, e).stranded == w.stranded
  {
  }

  lemma {:induction false} NothingStranded(p: Profile, run: seq<World>, i: nat)
    requires IsHonestRun(p, run) && MonotoneClock(run) && i < |run|
    ensures run[i].stranded == EMPTY && Timely(run[i])
  {
    if i > 0 {
      NothingStranded(p, run, i - 1);
      MonotoneStep(p, run[i - 1], run[i]);
    }
  }

  /** With a monotone clock nothing is ever stranded, so media is conserved as the totals say. */
  lemma MediaIsConserved(p: Profile, run: seq<World>, i: nat)
    requires IsHonestRun(p, run) && MonotoneClock(run) && i < |run|
    ensures run[i].flow.inFlight == Total(run[i].issued, run[i].flow.active)
    ensures run[i].flow.inputMedia == run[i].flow.queued.media + run[i].flow.inFlight.media
            + run[i].flow.completedMedia + run[i].flow.dropped.media
  {
    LoadIsConserved(p, run, i);
    NothingStranded(p, run, i);
  }

  lemma MonotoneStep(p: Profile, w: World, v: World)
    requires FollowsHonestly(p, w, v) && w.clock <= v.clock && Timely(w)
    ensures v.stranded == w.stranded && Timely(v)
  {
    var e :| Presented(w, e) && !Overflows(p, w, e) && v == Step(p, w, e);
    EventIsTimely(p, w, e);
    HeldWorkCompletes(p, w, e);
  }

  /** On such a run the guards of a genuine completion never fire, and neither does the clock check. */
  lemma GenuineCompletionSucceeds(p: Profile, run: seq<World>, i: nat, work: Work, now: nat, n: Prediction)
    requires IsHonestRun(p, run) && MonotoneClock(run) && i < |run|
    requires Presented(run[i], Complete(work, now, n)) && work.own && now >= run[i].clock
    ensures var reply := AfterCompletion(p, run[i].flow, work, now, n).reply;
            reply.Updated? || (reply == Refused(CounterOverflow)
                               && run[i].flow.completedMedia + work.measurement.media > DURATION_MAX)
  {
    LoadIsConserved(p, run, i);
    NothingStranded(p, run, i);
    CompletionIsCovered(run[i], work);
  }

  /**
   Completing a held work keeps the in-flight totals equal to the sums over the active
   admissions, as far as they were, exactly when the clock has not run behind the work's
   start: otherwise the admission is forgotten while its load stays counted.
   */
  lemma CompletionBalancesIff(p: Profile, w: World, work: Work, now: nat, n: Prediction)
    requires Balanced(w) && w.stranded == EMPTY
    requires work.own && work.id in w.held && work.id < |w.issued| && work == w.issued[work.id]
    ensures var o := AfterCompletion(p, w.flow, work, now, n);
            o.flow.inFlight == Total(w.issued, o.flow.active) <==> now >= work.startedAt
  {
    CompletionIsCovered(w, work);
    assert AfterCompletion(p, w.flow, work, now, n).flow.active == w.flow.active - {work.id};
  }

  predicate AtLeast(a: Load, b: Load) {
    a.frames >= b.frames && a.bytes >= b.bytes && a.media >= b.media
  }

  lemma StrandedGrows(p: Profile, w: World, v: World)
    requires Follows(p, w, v)
    ensures AtLeast(v.stranded, w.stranded)
  {
  }

  /** What a backwards clock has stranded stays counted as in flight for good, on every continuation of the run. */
  lemma {:induction false} StrandedForGood(p: Profile, run: seq<World>, j: nat, i: nat)
    requires IsHonestRun(p, run) && j <= i < |run|
    ensures AtLeast(run[i].stranded, run[j].stranded)
    ensures Sums(run[i].flow.inFlight, Total(run[i].issued, run[i].flow.active), run[i].stranded)
    decreases i - j
  {
    LoadIsConserved(p, run, i);
    if j < i {
      StrandedForGood(p, run, j, i - 1);
      HonestRunIsRun(p, run);
      StrandedGrows(p, run[i - 1], run[i]);
    }
  }

  lemma FirstFrame(p: Profile, m: Measurement, n: Prediction) returns (v: World)
    requires m.bytes <= COUNTER_MAX && m.media <= DURATION_MAX
    ensures v.issued == [] && v.held == {} && v.stranded == EMPTY && FollowsHonestly(p, FRESH, v)
    ensures v.flow.queued == Plus(EMPTY, m) && v.flow.active == {} && v.flow.nextId == 0 && v.flow.inFlight == EMPTY
  {
    assert Presented(FRESH, Enqueue(m, 5, n)) && !Overflows(p, FRESH, Enqueue(m, 5, n));
    v := Step(p, FRESH, Enqueue(m, 5, n));
  }

  lemma FirstAdmission(p: Profile, w: World, m: Measurement, n: Prediction) returns (v: World)
    requires m.bytes <= COUNTER_MAX && m.media <= DURATION_MAX
    requires w.flow.queued == Plus(EMPTY, m) && w.flow.active == {} && w.flow.nextId == 0 && w.flow.inFlight == EMPTY
    requires w.issued == [] && w.held == {} && w.stranded == EMPTY
    ensures v.issued == [Work(true, 0, m, 5)] && v.held == {0} && v.flow.active == {0}
    ensures v.flow.inFlight == Plus(EMPTY, m) && v.stranded == EMPTY && FollowsHonestly(p, w, v)
  {
    assert Presented(w, Admit(m, 5, n)) && !Overflows(p, w, Admit(m, 5, n));
    v := Step(p, w, Admit(m, 5, n));
  }

  lemma LateCompletion(p: Profile, w: World, m: Measurement, n: Prediction) returns (v: World)
    requires w.issued == [Work(true, 0, m, 5)] && w.held == {0} && w.flow.active == {0} && w.stranded == EMPTY
    requires w.flow.inFlight == Plus(EMPTY, m)
    ensures v.stranded == Plus(EMPTY, m) && v.held == {} && v.flow.active == {} && v.flow.inFlight == Plus(EMPTY, m)
    ensures FollowsHonestly(p, w, v)
  {
    var late := Complete(w.issued[0], 4, n);
    assert Respond(p, w.flow, late).reply == Refused(ClockMovedBackwards);
    assert Presented(w, late) && !Overflows(p, w, late);
    v := Step(p, w, late);
  }

  lemma HonestRunGrows(p: Profile, run: seq<World>, v: World)
    requires IsHonestRun(p, run) && FollowsHonestly(p, run[|run| - 1], v)
    ensures IsHonestRun(p, run + [v])
  {
    var more := run + [v];
    forall i | 0 < i < |more| ensures FollowsHonestly(p, more[i - 1], more[i]) {
      if i < |run| { assert more[i - 1] == run[i - 1] && more[i] == run[i]; }
    }
  }

  lemma LateRun(p: Profile, m: Measurement, n: Prediction) returns (run: seq<World>)
    requires m.bytes <= COUNTER_MAX && m.media <= DURATION_MAX
    ensures IsHonestRun(p, run) && |run| == 4
    ensures run[3].held == {} && run[3].flow.active == {} && run[3].stranded == run[3].flow.inFlight == Plus(EMPTY, m)
  {
    var queued := FirstFrame(p, m, n);
    HonestRunGrows(p, [FRESH], queued);
    var admitted := FirstAdmission(p, queued, m, n);
    HonestRunGrows(p, [FRESH] + [queued], admitted);
    var late := LateCompletion(p, admitted, m, n);
    HonestRunGrows(p, [FRESH] + [queued] + [admitted], late);
    run := [FRESH] + [queued] + [admitted] + [late];
  }

  /** One frame, admitted at time 5 and completed at time 4, is in flight for good although nothing is active. */
  lemma BackwardsClockStrandsTheLoad(p: Profile, n: Prediction) returns (run: seq<World>)
    ensures IsHonestRun(p, run) && |run| == 4
    ensures run[3].held == {} && run[3].flow.active == {}
    ensures run[3].stranded == run[3].flow.inFlight == Load(1, 10, 20)
  {
    run := LateRun(p, Measurement(10, 20), n);
  }

  // ---------------------------------------------------------------- lossless ports

  lemma LosslessStep(p: Profile, w: World, v: World)
    requires Follows(p, w, v) && p.contract.guarantee.Lossless?
    ensures v.flow.dropped == w.flow.dropped
  {
    var e :| v == Step(p, w, e);
    DroppedStays(p, w.flow, e);
  }

  lemma DroppedStays(p: Profile, f: Flow, e: Event)
    requires p.contract.guarantee.Lossless?
    ensures Respond(p, f, e).flow.dropped == f.dropped
  {
  }

  /**
   A lossless port never drops, whatever happens to it: no drop is ever recorded, and a valid
   profile never decides on one.
   */
  lemma {:induction false} LosslessNeverDrops(p: Profile, run: seq<World>, i: nat, vad: Option<Vad>)
    requires IsRun(p, run) && i < |run| && Validate(p).None? && p.contract.guarantee.Lossless?
    ensures run[i].flow.dropped == EMPTY && !LosesFrames(DecideOverflow(p, vad))
  {
    ValidDecisionIsPermitted(p, vad);
    if i > 0 {
      LosslessNeverDrops(p, run, i - 1, vad);
      LosslessStep(p, run[i - 1], run[i]);
    }
  }

  /** So on a lossless port everything that arrived is queued, in flight or finished. */
  lemma LosslessKeepsAll(p: Profile, run: seq<World>, i: nat)
    requires IsHonestRun(p, run) && i < |run| && Validate(p).None? && p.contract.guarantee.Lossless?
    ensures SumsFour(run[i].arrived, run[i].flow.queued, run[i].flow.inFlight, run[i].finished, EMPTY)
  {
    HonestRunIsRun(p, run);
    LosslessNeverDrops(p, run, i, None);
    LoadIsConserved(p, run, i);
  }
}
