/**
 The adaptive flow controller of one input port: admission accounting plus a three-state
 hysteresis machine. Durations are whole nanoseconds; the rate estimates behind a prediction
 are an arbitrary input of every evaluation.
 */
module FlowControl {
  import opened Optional
  import opened RealtimeProfile

  datatype FlowState = Normal | Pressure | Critical
  datatype Signal = PressureSignal | ResumeSignal

  datatype Measurement = Measurement(bytes: nat, media: nat)
  datatype Load = Load(frames: nat, bytes: nat, media: nat)
  datatype Prediction = Prediction(latency: nat, saturation: Option<nat>)

  /** The completion capability of one admission; `own` says that this controller issued it. */
  datatype Work = Work(own: bool, id: nat, measurement: Measurement, startedAt: nat)

  datatype Action =
    | KeepNormalBatch
    | SetBatchTarget(duration: nat)
    | LimitAdmissions(limit: nat)
    | ResumeAdmissions
    | EmitPressure
    | EmitResume
    | ApplyOverflow(policy: OverflowPolicy)
    | AbortTheSession

  datatype FlowError =
    | ClockMovedBackwards
    | CounterOverflow
    | AdmissionWithoutQueuedFrame
    | CompletionWithoutAdmission
    | DropWithoutQueuedFrame
    | LosslessDropForbidden

  datatype Reply =
    | Updated(actions: seq<Action>)
    | Admitted(work: Work, actions: seq<Action>)
    | Refused(error: FlowError)

  datatype Flow = Flow(
    state: FlowState,
    healthy: nat,
    signals: seq<Signal>,
    queued: Load,
    inFlight: Load,
    dropped: Load,
    inputMedia: nat,
    completedMedia: nat,
    nextId: nat,
    active: set<nat>,
    lastInput: Option<nat>)

  const EMPTY := Load(0, 0, 0)
  const START := Flow(Normal, 0, [], EMPTY, EMPTY, EMPTY, 0, 0, 0, {}, None)

  const COUNTER_MAX: nat := 0xFFFF_FFFF_FFFF_FFFF
  const DURATION_MAX: nat := 18_446_744_073_709_551_615_999_999_999
  const RESUME_SAMPLES: nat := 3
  const SIGNAL_HISTORY_LIMIT: nat := 64

  // ---------------------------------------------------------------- hysteresis

  predicate HardLimit(p: Profile, q: Load) {
    q.frames >= p.tuning.maxFrames || q.bytes >= p.tuning.maxBytes || q.media >= p.tuning.maxMedia
  }

  predicate AboveThreeQuarters(p: Profile, q: Load) {
    || 4 * q.frames >= 3 * p.tuning.maxFrames
    || 4 * q.bytes >= 3 * p.tuning.maxBytes
    || 4 * q.media >= 3 * p.tuning.maxMedia
  }

  predicate SaturatesWithin(n: Prediction, time: nat) {
    n.saturation.Some? && n.saturation.value <= time
  }

  function Desired(p: Profile, q: Load, n: Prediction): FlowState {
    if HardLimit(p, q) || n.latency >= p.contract.latencyBudget || SaturatesWithin(n, p.tuning.deadline / 2) then
      Critical
    else if AboveThreeQuarters(p, q) || 4 * n.latency >= 3 * p.contract.latencyBudget
      || SaturatesWithin(n, p.tuning.deadline) then
      Pressure
    else Normal
  }

  predicate Healthy(p: Profile, q: Load, n: Prediction) {
    && 2 * q.frames < p.tuning.maxFrames && 2 * q.bytes < p.tuning.maxBytes && 2 * q.media < p.tuning.maxMedia
    && 2 * n.latency < p.contract.latencyBudget && !SaturatesWithin(n, 2 * p.tuning.deadline)
  }

  datatype Gauge = Gauge(state: FlowState, healthy: nat)

  function Turn(g: Gauge, desired: FlowState, healthy: bool): Gauge {
    if g.state.Normal? then g.(state := desired)
    else if g.state.Pressure? && desired.Critical? then g.(state := Critical)
    else if desired.Normal? && healthy then
      var count := if g.healthy < 255 then g.healthy + 1 else 255;
      if count >= RESUME_SAMPLES then Gauge(Normal, 0) else g.(healthy := count)
    else g.(healthy := 0)
  }

  /** The signal a transition emits, if any. */
  function SignalOf(before: FlowState, after: FlowState): Option<Signal> {
    if before != after && after.Normal? then Some(ResumeSignal)
    else if before.Normal? && !after.Normal? then Some(PressureSignal)
    else None
  }

  /** The bounded history keeps the most recent signals of a pausable upstream. */
  function Recorded(p: Profile, signals: seq<Signal>, signal: Signal): seq<Signal> {
    if !p.contract.upstreamCanPause then signals
    else if |signals| == SIGNAL_HISTORY_LIMIT then signals[1..] + [signal]
    else signals + [signal]
  }

  function ActionsOf(p: Profile, before: FlowState, after: FlowState): seq<Action> {
    match after
    case Normal => [KeepNormalBatch, ResumeAdmissions] + (if SignalOf(before, after).Some? then [EmitResume] else [])
    case Pressure =>
      (if p.tuning.maxMerge.Some? then [SetBatchTarget(p.tuning.maxMerge.value)] else [])
      + [LimitAdmissions(if p.tuning.maxInFlight / 2 > 1 then p.tuning.maxInFlight / 2 else 1)]
      + (if SignalOf(before, after).Some? then [EmitPressure] else [])
    case Critical =>
      [LimitAdmissions(0)]
      + (if SignalOf(before, after).Some? then [EmitPressure] else [])
      + [if p.tuning.overflow.AbortSession? then AbortTheSession else ApplyOverflow(p.tuning.overflow)]
  }

  function Evaluated(p: Profile, f: Flow, n: Prediction): Flow {
    var g := Turn(Gauge(f.state, f.healthy), Desired(p, f.queued, n), Healthy(p, f.queued, n));
    var signal := SignalOf(f.state, g.state);
    f.(state := g.state, healthy := g.healthy,
       signals := if signal.Some? then Recorded(p, f.signals, signal.value) else f.signals)
  }

  // ---------------------------------------------------------------- accounting

  datatype Sum = Sum(load: Load, fits: bool)

  /** Counters are bumped one after the other; an overflow leaves those before it bumped. */
  function Add(l: Load, m: Measurement): Sum {
    if l.frames + 1 > COUNTER_MAX then Sum(l, false)
    else if l.bytes + m.bytes > COUNTER_MAX then Sum(l.(frames := l.frames + 1), false)
    else if l.media + m.media > DURATION_MAX then Sum(Load(l.frames + 1, l.bytes + m.bytes, l.media), false)
    else Sum(Load(l.frames + 1, l.bytes + m.bytes, l.media + m.media), true)
  }

  /** The same, counter by counter. */
  method Bump(l: Load, m: Measurement) returns (sum: Sum)
    ensures sum == Add(l, m)
  {
    var load := l;
    if load.frames + 1 > COUNTER_MAX { return Sum(load, false); }
    load := load.(frames := load.frames + 1);
    if load.bytes + m.bytes > COUNTER_MAX { return Sum(load, false); }
    load := load.(bytes := load.bytes + m.bytes);
    if load.media + m.media > DURATION_MAX { return Sum(load, false); }
    load := load.(media := load.media + m.media);
    return Sum(load, true);
  }

  predicate Covers(l: Load, m: Measurement) {
    l.frames > 0 && l.bytes >= m.bytes && l.media >= m.media
  }

  function Take(l: Load, m: Measurement): Load
    requires Covers(l, m)
  {
    Load(l.frames - 1, l.bytes - m.bytes, l.media - m.media)
  }

  datatype Outcome = Outcome(flow: Flow, reply: Reply)

  function Settle(p: Profile, before: Flow, f: Flow, n: Prediction): Outcome {
    Outcome(Evaluated(p, f, n), Updated(ActionsOf(p, before.state, Evaluated(p, f, n).state)))
  }

  function AfterEnqueue(p: Profile, f: Flow, m: Measurement, now: nat, n: Prediction): Outcome {
    if f.lastInput.Some? && now < f.lastInput.value then Outcome(f, Refused(ClockMovedBackwards))
    else
      var sum := Add(f.queued, m);
      var g := f.(lastInput := Some(now), queued := sum.load);
      if !sum.fits || f.inputMedia + m.media > DURATION_MAX then Outcome(g, Refused(CounterOverflow))
      else Settle(p, f, g.(inputMedia := f.inputMedia + m.media), n)
  }

  function AfterAdmission(p: Profile, f: Flow, m: Measurement, now: nat, n: Prediction): Outcome {
    if !Covers(f.queued, m) then Outcome(f, Refused(AdmissionWithoutQueuedFrame))
    else if f.nextId + 1 > COUNTER_MAX then Outcome(f, Refused(CounterOverflow))
    else
      var sum := Add(f.inFlight, m);
      var g := f.(nextId := f.nextId + 1, queued := Take(f.queued, m), inFlight := sum.load);
      if !sum.fits || f.nextId in f.active then Outcome(g, Refused(CounterOverflow))
      else
        var h := g.(active := f.active + {f.nextId});
        Outcome(Evaluated(p, h, n),
                Admitted(Work(true, f.nextId, m, now), ActionsOf(p, f.state, Evaluated(p, h, n).state)))
  }

  function AfterCompletion(p: Profile, f: Flow, w: Work, now: nat, n: Prediction): Outcome {
    if !w.own || w.id !in f.active then Outcome(f, Refused(CompletionWithoutAdmission))
    else
      var g := f.(active := f.active - {w.id});
      if !Covers(f.inFlight, w.measurement) then Outcome(g, Refused(CompletionWithoutAdmission))
      else if now < w.startedAt then Outcome(g, Refused(ClockMovedBackwards))
      else
        var h := g.(inFlight := Take(f.inFlight, w.measurement));
        if f.completedMedia + w.measurement.media > DURATION_MAX then Outcome(h, Refused(CounterOverflow))
        else Settle(p, f, h.(completedMedia := f.completedMedia + w.measurement.media), n)
  }

  function AfterDrop(p: Profile, f: Flow, m: Measurement, n: Prediction): Outcome {
    if p.contract.guarantee.Lossless? then Outcome(f, Refused(LosslessDropForbidden))
    else if !Covers(f.queued, m) then Outcome(f, Refused(DropWithoutQueuedFrame))
    else
      var sum := Add(f.dropped, m);
      var g := f.(queued := Take(f.queued, m), dropped := sum.load);
      if !sum.fits then Outcome(g, Refused(CounterOverflow)) else Settle(p, f, g, n)
  }

  /** The controller as an object; each record method leaves exactly the state its specification names. */
  class AdaptiveFlowController {
    const profile: Profile
    var state: FlowState
    var healthySamples: nat
    var signals: seq<Signal>
    var queued: Load
    var inFlight: Load
    var dropped: Load
    var inputMedia: nat
    var completedMedia: nat
    var nextAdmissionId: nat
    var activeAdmissions: set<nat>
    var lastInputAt: Option<nat>

    constructor (p: Profile)
      requires Validate(p).None?
      ensures profile == p && View() == START
    {
      profile := p;
      state := Normal;
      healthySamples := 0;
      signals := [];
      queued, inFlight, dropped := EMPTY, EMPTY, EMPTY;
      inputMedia, completedMedia, nextAdmissionId := 0, 0, 0;
      activeAdmissions := {};
      lastInputAt := None;
    }

    /** An invalid profile yields its first fault and no controller. */
    static method New(p: Profile) returns (controller: AdaptiveFlowController?, fault: Option<ProfileError>)
      ensures fault == Validate(p) && (controller == null <==> fault.Some?)
      ensures controller != null ==> fresh(controller) && controller.profile == p && controller.View() == START
    {
      fault := Validate(p);
      if fault.Some? { return null, fault; }
      controller := new AdaptiveFlowController(p);
    }

    ghost function View(): Flow
      reads this
    {
      Flow(state, healthySamples, signals, queued, inFlight, dropped, inputMedia, completedMedia, nextAdmissionId,
           activeAdmissions, lastInputAt)
    }

    method RecordSignal(signal: Signal)
      modifies this`signals
      ensures signals == Recorded(profile, old(signals), signal)
    {
      if !profile.contract.upstreamCanPause { return; }
      if |signals| == SIGNAL_HISTORY_LIMIT { signals := signals[1..]; }
      signals := signals + [signal];
    }

    /** The transition of one evaluation, and the signal it records. */
    method Advance(desired: FlowState, healthy: bool)
      modifies this`state, this`healthySamples, this`signals
      ensures Gauge(state, healthySamples) == Turn(Gauge(old(state), old(healthySamples)), desired, healthy)
      ensures var signal := SignalOf(old(state), state);
              signals == if signal.Some? then Recorded(profile, old(signals), signal.value) else old(signals)
    {
      var previous := state;
      if state == Normal {
        state := desired;
      } else if state == Pressure && desired == Critical {
        state := Critical;
      } else if desired == Normal && healthy {
        healthySamples := if healthySamples < 255 then healthySamples + 1 else 255;
        if healthySamples >= RESUME_SAMPLES {
          state := Normal;
          healthySamples := 0;
        }
      } else {
        healthySamples := 0;
      }
      if previous != state && state == Normal {
        RecordSignal(ResumeSignal);
      } else if previous == Normal && state != Normal {
        RecordSignal(PressureSignal);
      }
    }

    /** What the controller asks for in its state, having come from `previous`. */
    method Advise(previous: FlowState) returns (actions: seq<Action>)
      ensures actions == ActionsOf(profile, previous, state)
    {
      actions := [];
      match state
      case Normal =>
        actions := actions + [KeepNormalBatch, ResumeAdmissions];
        if previous != Normal { actions := actions + [EmitResume]; }
      case Pressure =>
        if profile.tuning.maxMerge.Some? { actions := actions + [SetBatchTarget(profile.tuning.maxMerge.value)]; }
        var half := profile.tuning.maxInFlight / 2;
        actions := actions + [LimitAdmissions(if half > 1 then half else 1)];
        if previous == Normal { actions := actions + [EmitPressure]; }
      case Critical =>
        actions := actions + [LimitAdmissions(0)];
        if previous == Normal { actions := actions + [EmitPressure]; }
        actions := actions + [if profile.tuning.overflow.AbortSession? then AbortTheSession
                              else ApplyOverflow(profile.tuning.overflow)];
    }

    method Evaluate(n: Prediction) returns (actions: seq<Action>)
      modifies this`state, this`healthySamples, this`signals
      ensures View() == Evaluated(profile, old(View()), n)
      ensures actions == ActionsOf(profile, old(state), state)
    {
      var previous := state;
      Advance(Desired(profile, queued, n), Healthy(profile, queued, n));
      actions := Advise(previous);
    }

    method RecordEnqueue(m: Measurement, now: nat, n: Prediction) returns (reply: Reply)
      modifies this
      ensures Outcome(View(), reply) == AfterEnqueue(profile, old(View()), m, now, n)
    {
      if lastInputAt.Some? && now < lastInputAt.value { return Refused(ClockMovedBackwards); }
      lastInputAt := Some(now);
      var sum := Bump(queued, m);
      queued := sum.load;
      if !sum.fits { return Refused(CounterOverflow); }
      if inputMedia + m.media > DURATION_MAX { return Refused(CounterOverflow); }
      inputMedia := inputMedia + m.media;
      var actions := Evaluate(n);
      return Updated(actions);
    }

    method RecordAdmission(m: Measurement, now: nat, n: Prediction) returns (reply: Reply)
      modifies this
      ensures Outcome(View(), reply) == AfterAdmission(profile, old(View()), m, now, n)
    {
      if queued.frames == 0 || queued.bytes < m.bytes || queued.media < m.media {
        return Refused(AdmissionWithoutQueuedFrame);
      }
      var id := nextAdmissionId;
      if nextAdmissionId + 1 > COUNTER_MAX { return Refused(CounterOverflow); }
      nextAdmissionId := nextAdmissionId + 1;
      queued := Load(queued.frames - 1, queued.bytes - m.bytes, queued.media - m.media);
      var sum := Bump(inFlight, m);
      inFlight := sum.load;
      if !sum.fits { return Refused(CounterOverflow); }
      if id in activeAdmissions { return Refused(CounterOverflow); }
      activeAdmissions := activeAdmissions + {id};
      var work := Work(true, id, m, now);
      var actions := Evaluate(n);
      return Admitted(work, actions);
    }

    method RecordCompletion(w: Work, now: nat, n: Prediction) returns (reply: Reply)
      modifies this
      ensures Outcome(View(), reply) == AfterCompletion(profile, old(View()), w, now, n)
    {
      if !w.own || w.id !in activeAdmissions { return Refused(CompletionWithoutAdmission); }
      activeAdmissions := activeAdmissions - {w.id};
      var m := w.measurement;
      if inFlight.frames == 0 || inFlight.bytes < m.bytes || inFlight.media < m.media {
        return Refused(CompletionWithoutAdmission);
      }
      if now < w.startedAt { return Refused(ClockMovedBackwards); }
      inFlight := Load(inFlight.frames - 1, inFlight.bytes - m.bytes, inFlight.media - m.media);
      if completedMedia + m.media > DURATION_MAX { return Refused(CounterOverflow); }
      completedMedia := completedMedia + m.media;
      var actions := Evaluate(n);
      return Updated(actions);
    }

    method RecordDrop(m: Measurement, n: Prediction) returns (reply: Reply)
      modifies this
      ensures Outcome(View(), reply) == AfterDrop(profile, old(View()), m, n)
    {
      if profile.contract.guarantee == Lossless { return Refused(LosslessDropForbidden); }
      if queued.frames == 0 || queued.bytes < m.bytes || queued.media < m.media {
        return Refused(DropWithoutQueuedFrame);
      }
      queued := Load(queued.frames - 1, queued.bytes - m.bytes, queued.media - m.media);
      var sum := Bump(dropped, m);
      dropped := sum.load;
      if !sum.fits { return Refused(CounterOverflow); }
      var actions := Evaluate(n);
      return Updated(actions);
    }

    method Sample(n: Prediction) returns (reply: Reply)
      modifies this
      ensures Outcome(View(), reply) == Settle(profile, old(View()), old(View()), n)
    {
      var actions := Evaluate(n);
      return Updated(actions);
    }
  }
}
