/**
 The timestamp bookkeeping of the media pipeline around an opaque conversion backend: which
 calls are refused, how output timestamps are joined to the running timeline, and what the
 counters say about it. The backend's answer is an input of every call.
 */
module MediaPipeline {
  import opened Optional
  import opened Division
  import opened AudioTiming

  /** Sample formats by name; two of the same width are different formats all the same. */
  datatype SampleFormat = U8 | I16Le | I24Le | I32Le | F32Le | F64Le | Unknown

  function Width(format: SampleFormat): nat {
    match format
    case U8 => 1
    case I16Le => 2
    case I24Le => 3
    case I32Le => 4
    case F32Le => 4
    case F64Le => 8
    case Unknown => 0
  }

  datatype Spec = Spec(rate: nat, channels: nat, format: SampleFormat)

  /** A packed input view; `present` says its data pointer is not null. */
  datatype View = View(spec: Spec, samples: U64, size: nat, present: bool, timestamp: I64)
  datatype Converted = Converted(spec: Spec, samples: U64, bytes: nat)
  datatype Answer = Answer(status: int, frame: Converted)
  datatype Owned = Owned(spec: Spec, samples: U64, bytes: nat, timestamp: I64)

  datatype Failure = InvalidArgument | Oversized | BackendStatus(status: int) | BackendFailure
  datatype Result = Ok(frame: Owned) | Err(failure: Failure)

  datatype Config = Config(maxFrameBytes: nat, tolerance: nat)

  datatype Pipe = Pipe(
    hasTimestamp: bool,
    next: I64,
    hasSpec: bool,
    flushing: bool,
    inputSpec: Spec,
    outputSpec: Spec,
    audioFrames: nat,
    outputBytes: nat,
    invalidRejected: nat,
    oversizedRejected: nat,
    backendFailures: nat,
    discontinuities: nat)

  const NO_SPEC := Spec(0, 0, I16Le)
  const NEW_PIPE := Pipe(false, 0, false, false, NO_SPEC, NO_SPEC, 0, 0, 0, 0, 0, 0)

  predicate ValidSpec(s: Spec) {
    1 <= s.rate <= 768_000 && 1 <= s.channels <= 64 && Width(s.format) != 0
  }

  function CheckedProduct(left: nat, right: nat): Option<nat> {
    if left != 0 && right > U64_MAX / left then None else Some(left * right)
  }

  function AudioSize(s: Spec, samples: nat): Option<nat> {
    if samples == 0 || samples > U64_MAX then None
    else
      var count := CheckedProduct(samples, s.channels);
      if count.None? then None else CheckedProduct(count.value, Width(s.format))
  }

  // ---------------------------------------------------------------- sizes

  lemma ProductIsExact(left: nat, right: nat)
    ensures CheckedProduct(left, right) == if left * right <= U64_MAX then Some(left * right) else None
  {
    if left != 0 {
      Divided(U64_MAX, left);
      Grows(Div(U64_MAX, left), right, left);
      Grows(right, Div(U64_MAX, left), left);
    }
  }

  lemma NoSmaller(a: nat, b: nat)
    requires b >= 1
    ensures a * b >= a
  {
    assert a * b == a + a * (b - 1);
  }

  /** The guarded products accept exactly the frame sizes that fit, and compute them exactly. */
  lemma SizeIsExact(s: Spec, samples: nat)
    requires ValidSpec(s)
    ensures AudioSize(s, samples) ==
            if 0 < samples && samples * s.channels * Width(s.format) <= U64_MAX
            then Some(samples * s.channels * Width(s.format)) else None
  {
    ProductIsExact(samples, s.channels);
    ProductIsExact(samples * s.channels, Width(s.format));
    NoSmaller(samples, s.channels);
    NoSmaller(samples * s.channels, Width(s.format));
  }

  // ---------------------------------------------------------------- the operations

  predicate AcceptableInput(v: View, output: Spec) {
    ValidSpec(v.spec) && ValidSpec(output) && AudioSize(v.spec, v.samples) == Some(v.size) && v.present
  }

  /** Timestamps within the tolerance of the timeline are moved onto it. */
  function Joined(cfg: Config, p: Pipe, timestamp: I64): I64 {
    if p.hasTimestamp && Distance(timestamp, p.next) <= cfg.tolerance then p.next else timestamp
  }

  datatype Outcome = Outcome(pipe: Pipe, result: Result)

  function Place(p: Pipe, f: Converted, timestamp: I64, overflow: Pipe): Outcome
  {
    var duration := PipelineNs(f.samples, f.spec.rate);
    if duration.None? || (duration.value > 0 && timestamp > I64_MAX - duration.value) then
      Outcome(overflow, Err(BackendFailure))
    else
      assert I64_MIN <= timestamp + duration.value <= I64_MAX;
      Outcome(p.(next := timestamp + duration.value, hasTimestamp := true, audioFrames := p.audioFrames + 1,
                 outputBytes := p.outputBytes + f.bytes),
              Ok(Owned(f.spec, f.samples, f.bytes, timestamp)))
  }

  function AfterConversion(cfg: Config, p: Pipe, v: View, output: Spec, f: Converted): Outcome {
    if f.samples == 0 then Outcome(p, Ok(Owned(output, 0, 0, if p.hasTimestamp then p.next else v.timestamp)))
    else if f.spec != output || AudioSize(f.spec, f.samples) != Some(f.bytes) then
      Outcome(p.(backendFailures := p.backendFailures + 1), Err(BackendFailure))
    else if f.bytes > cfg.maxFrameBytes then Outcome(p.(oversizedRejected := p.oversizedRejected + 1), Err(Oversized))
    else
      var timestamp := Joined(cfg, p, v.timestamp);
      var q := if p.hasTimestamp && Distance(v.timestamp, p.next) > cfg.tolerance
               then p.(discontinuities := p.discontinuities + 1) else p;
      Place(q, f, timestamp, q.(backendFailures := q.backendFailures + 1))
  }

  function AfterConvert(cfg: Config, p: Pipe, v: View, output: Spec, a: Answer): Outcome {
    if !AcceptableInput(v, output) then Outcome(p.(invalidRejected := p.invalidRejected + 1), Err(InvalidArgument))
    else if v.size > cfg.maxFrameBytes then Outcome(p.(oversizedRejected := p.oversizedRejected + 1), Err(Oversized))
    else if p.flushing || (p.hasSpec && (p.inputSpec != v.spec || p.outputSpec != output)) then
      Outcome(p.(invalidRejected := p.invalidRejected + 1), Err(InvalidArgument))
    else if a.status != 0 then Outcome(p.(backendFailures := p.backendFailures + 1), Err(BackendStatus(a.status)))
    else AfterConversion(cfg, p.(hasSpec := true, inputSpec := v.spec, outputSpec := output), v, output, a.frame)
  }

  function AfterFlush(cfg: Config, p: Pipe, output: Spec, a: Answer): Outcome {
    if !ValidSpec(output) then Outcome(p, Err(InvalidArgument))
    else if p.hasSpec && p.outputSpec != output then
      Outcome(p.(invalidRejected := p.invalidRejected + 1), Err(InvalidArgument))
    else
      var q := p.(flushing := p.hasSpec);
      var timestamp: I64 := if p.hasTimestamp then p.next else 0;
      if a.status != 0 then Outcome(q.(backendFailures := q.backendFailures + 1), Err(BackendStatus(a.status)))
      else if a.frame.samples == 0 then Outcome(q, Ok(Owned(output, 0, 0, timestamp)))
      else if AudioSize(output, a.frame.samples) != Some(a.frame.bytes) || a.frame.bytes > cfg.maxFrameBytes then
        Outcome(q.(backendFailures := q.backendFailures + 1), Err(BackendFailure))
      else Place(q, a.frame.(spec := output), timestamp, q)
  }

  function AfterReset(p: Pipe): Pipe {
    p.(hasTimestamp := false, next := 0, hasSpec := false, flushing := false)
  }

  // ---------------------------------------------------------------- the timeline of every run

  datatype Event = Convert(view: View, output: Spec, answer: Answer) | Flush(output: Spec, answer: Answer) | Reset

  /** A frame handed out: where it was asked to be, where it was put, and whether it opens a timeline. */
  datatype Emitted = Emitted(asked: I64, timestamp: I64, samples: U64, spec: Spec, opens: bool)

  /** `dropped` counts discontinuities of frames that then failed to be placed. */
  datatype World = World(pipe: Pipe, frames: seq<Emitted>, dropped: nat)

  const FRESH := World(NEW_PIPE, [], 0)

  function Respond(cfg: Config, p: Pipe, e: Event): Outcome {
    match e
    case Convert(v, output, a) => AfterConvert(cfg, p, v, output, a)
    case Flush(output, a) => AfterFlush(cfg, p, output, a)
    case Reset => Outcome(AfterReset(p), Err(InvalidArgument))
  }

  predicate HandsOut(r: Result) {
    r.Ok? && r.frame.samples != 0
  }

  function Step(cfg: Config, w: World, e: Event): World {
    var o := Respond(cfg, w.pipe, e);
    if HandsOut(o.result) then
      var asked := if e.Convert? then e.view.timestamp else if w.pipe.hasTimestamp then w.pipe.next else 0;
      w.(pipe := o.pipe,
         frames := w.frames + [Emitted(asked, o.result.frame.timestamp, o.result.frame.samples, o.result.frame.spec,
                                       !w.pipe.hasTimestamp)])
    else w.(pipe := o.pipe, dropped := w.dropped + (if o.pipe.discontinuities > w.pipe.discontinuities then 1 else 0))
  }

  function Run(cfg: Config, events: seq<Event>): World {
    if events == [] then FRESH else Step(cfg, Run(cfg, events[..|events| - 1]), events[|events| - 1])
  }

  /** Where a frame ends, on exact arithmetic. */
  function End(e: Emitted): int {
    if 0 < e.spec.rate <= 768_000 then e.timestamp + Exact(e.samples, e.spec.rate) else e.timestamp
  }

  /** A frame either continues its predecessor exactly, or was asked for too far away and starts where it was asked. */
  predicate Continues(cfg: Config, before: Emitted, e: Emitted) {
    || (e.timestamp == End(before) && e.asked - End(before) <= cfg.tolerance && End(before) - e.asked <= cfg.tolerance)
    || (e.timestamp == e.asked && (e.asked - End(before) > cfg.tolerance || End(before) - e.asked > cfg.tolerance))
  }

  predicate FrameOk(cfg: Config, frames: seq<Emitted>, k: nat)
    requires k < |frames|
  {
    var e := frames[k];
    && ValidSpec(e.spec) && e.samples > 0 && End(e) <= I64_MAX
    && (k == 0 ==> e.opens)
    && (k > 0 && !e.opens ==> Continues(cfg, frames[k - 1], e))
  }

  /** How many frames break away from the timeline of their predecessor. */
  function Gaps(frames: seq<Emitted>): nat {
    if |frames| <= 1 then 0
    else
      var n := |frames| - 1;
      Gaps(frames[..n]) + (if !frames[n].opens && frames[n].timestamp != End(frames[n - 1]) then 1 else 0)
  }

  ghost predicate Tidy(cfg: Config, w: World) {
    && (forall k: nat {:trigger FrameOk(cfg, w.frames, k)} :: k < |w.frames| ==> FrameOk(cfg, w.frames, k))
    && (w.pipe.hasTimestamp ==> w.frames != [] && w.pipe.next == End(w.frames[|w.frames| - 1]))
    && w.pipe.audioFrames == |w.frames|
    && w.pipe.discontinuities == Gaps(w.frames) + w.dropped
  }

  /** Placing a frame gives it the timestamp asked for and moves the timeline to its exact end. */
  lemma PlaceIsExact(p: Pipe, f: Converted, timestamp: I64, overflow: Pipe)
    requires ValidSpec(f.spec) && f.samples > 0
    ensures var o := Place(p, f, timestamp, overflow);
            if f.samples <= I64_MAX && timestamp + Exact(f.samples, f.spec.rate) <= I64_MAX
              && Exact(f.samples, f.spec.rate) <= I64_MAX then
              && o.pipe.next == timestamp + Exact(f.samples, f.spec.rate)
              && o.result == Ok(Owned(f.spec, f.samples, f.bytes, timestamp))
            else o == Outcome(overflow, Err(BackendFailure))
  {
    PipelineIsExact(f.samples, f.spec.rate);
  }

  lemma FramesAppended(cfg: Config, frames: seq<Emitted>, e: Emitted)
    requires forall k: nat {:trigger FrameOk(cfg, frames, k)} :: k < |frames| ==> FrameOk(cfg, frames, k)
    requires FrameOk(cfg, frames + [e], |frames|)
    ensures forall k: nat {:trigger FrameOk(cfg, frames + [e], k)} :: k < |frames| + 1 ==> FrameOk(cfg, frames + [e], k)
    ensures Gaps(frames + [e]) ==
            Gaps(frames) + (if frames != [] && !e.opens && e.timestamp != End(frames[|frames| - 1]) then 1 else 0)
  {
    assert (frames + [e])[..|frames|] == frames;
    forall k: nat | k < |frames| + 1 ensures FrameOk(cfg, frames + [e], k) {
      if k < |frames| { assert FrameOk(cfg, frames, k); }
    }
  }

  /** The pipe after handing out one frame, whichever operation did it. */
  predicate HandedOut(cfg: Config, w: World, v: World, e: Emitted) {
    && v.frames == w.frames + [e] && v.dropped == w.dropped
    && ValidSpec(e.spec) && e.samples > 0 && End(e) <= I64_MAX && e.opens == !w.pipe.hasTimestamp
    && v.pipe.hasTimestamp && v.pipe.next == End(e) && v.pipe.audioFrames == w.pipe.audioFrames + 1
    && (e.opens ==> e.timestamp == e.asked && v.pipe.discontinuities == w.pipe.discontinuities)
    && (!e.opens ==> var far := Distance(e.asked, w.pipe.next) > cfg.tolerance;
          && e.timestamp == (if far then e.asked else w.pipe.next)
          && v.pipe.discontinuities == w.pipe.discontinuities + (if far then 1 else 0))
  }

  lemma HandingOutKeepsTidy(cfg: Config, w: World, v: World, e: Emitted)
    requires Tidy(cfg, w) && HandedOut(cfg, w, v, e)
    ensures Tidy(cfg, v)
  {
    if !e.opens { DistanceIsExact(e.asked, w.pipe.next); }
    FramesAppended(cfg, w.frames, e);
  }

  lemma ConvertHandsOut(cfg: Config, w: World, e: Event)
    requires e.Convert? && HandsOut(Respond(cfg, w.pipe, e).result)
    ensures |Step(cfg, w, e).frames| == |w.frames| + 1
    ensures HandedOut(cfg, w, Step(cfg, w, e), Step(cfg, w, e).frames[|w.frames|])
  {
    var f := e.answer.frame;
    var p := w.pipe;
    PlaceIsExact(p, f, Joined(cfg, p, e.view.timestamp), p);
    var q := p.(hasSpec := true, inputSpec := e.view.spec, outputSpec := e.output);
    var r := if p.hasTimestamp && Distance(e.view.timestamp, p.next) > cfg.tolerance
             then q.(discontinuities := p.discontinuities + 1) else q;
    PlaceIsExact(r, f, Joined(cfg, p, e.view.timestamp), r.(backendFailures := r.backendFailures + 1));
  }

  lemma FlushHandsOut(cfg: Config, w: World, e: Event)
    requires e.Flush? && HandsOut(Respond(cfg, w.pipe, e).result)
    ensures |Step(cfg, w, e).frames| == |w.frames| + 1
    ensures HandedOut(cfg, w, Step(cfg, w, e), Step(cfg, w, e).frames[|w.frames|])
  {
    var p := w.pipe;
    var q := p.(flushing := p.hasSpec);
    DistanceIsExact(p.next, p.next);
    PlaceIsExact(q, e.answer.frame.(spec := e.output), if p.hasTimestamp then p.next else 0, q);
  }

  /** Calls that hand out nothing leave the timeline alone, or forget it altogether. */
  lemma QuietStep(cfg: Config, w: World, e: Event)
    requires !HandsOut(Respond(cfg, w.pipe, e).result)
    ensures var v := Step(cfg, w, e);
            && v.frames == w.frames && v.pipe.audioFrames == w.pipe.audioFrames
            && v.pipe.discontinuities - w.pipe.discontinuities == v.dropped - w.dropped
            && (v.pipe.hasTimestamp ==> w.pipe.hasTimestamp && v.pipe.next == w.pipe.next)
  {
  }

  lemma StepKeepsTidy(cfg: Config, w: World, e: Event)
    requires Tidy(cfg, w)
    ensures Tidy(cfg, Step(cfg, w, e))
  {
    var v := Step(cfg, w, e);
    if HandsOut(Respond(cfg, w.pipe, e).result) {
      if e.Convert? { ConvertHandsOut(cfg, w, e); } else { FlushHandsOut(cfg, w, e); }
      HandingOutKeepsTidy(cfg, w, v, v.frames[|w.frames|]);
    } else {
      QuietStep(cfg, w, e);
    }
  }

  /**
   On every run the frames handed out tile the timeline: each starts at the exact end of the
   one before it unless it was asked for beyond the tolerance, no end overflows, and every
   break is counted as a discontinuity.
   */
  lemma {:induction false} TimelineIsTiled(cfg: Config, events: seq<Event>)
    ensures Tidy(cfg, Run(cfg, events))
  {
    if events != [] {
      TimelineIsTiled(cfg, events[..|events| - 1]);
      StepKeepsTidy(cfg, Run(cfg, events[..|events| - 1]), events[|events| - 1]);
    }
  }

  /** As long as every request is within the tolerance, a run never breaks the timeline. */
  lemma NearRequestsLeaveNoGap(cfg: Config, events: seq<Event>, k: nat)
    requires 0 < k < |Run(cfg, events).frames| && !Run(cfg, events).frames[k].opens
    requires var w := Run(cfg, events);
             && w.frames[k].asked - End(w.frames[k - 1]) <= cfg.tolerance
             && End(w.frames[k - 1]) - w.frames[k].asked <= cfg.tolerance
    ensures Run(cfg, events).frames[k].timestamp == End(Run(cfg, events).frames[k - 1])
  {
    TimelineIsTiled(cfg, events);
    assert FrameOk(cfg, Run(cfg, events).frames, k);
  }

  lemma FlushingRefuses(cfg: Config, p: Pipe, v: View, output: Spec, a: Answer)
    requires p.flushing
    ensures AfterConvert(cfg, p, v, output, a).result.Err?
  {
  }

  lemma RunNext(cfg: Config, events: seq<Event>, more: seq<Event>)
    requires more != []
    ensures Run(cfg, events + more) == Step(cfg, Run(cfg, events + more[..|more| - 1]), more[|more| - 1])
  {
    assert (events + more)[..|events + more| - 1] == events + more[..|more| - 1];
  }

  lemma {:induction false} FlushingLasts(cfg: Config, events: seq<Event>, more: seq<Event>)
    requires Run(cfg, events).pipe.flushing && Run(cfg, events).pipe.hasSpec
    requires forall i :: 0 <= i < |more| ==> !more[i].Reset?
    ensures Run(cfg, events + more).pipe.flushing && Run(cfg, events + more).pipe.hasSpec
    decreases |more|
  {
    if more == [] {
      assert events + more == events;
    } else {
      var rest := more[..|more| - 1];
      FlushingLasts(cfg, events, rest);
      RunNext(cfg, events, more);
      FlushStays(cfg, Run(cfg, events + rest), more[|more| - 1]);
    }
  }

  /** After a flush of a started stream, no conversion succeeds until a reset. */
  lemma FlushedStreamStaysClosed(cfg: Config, events: seq<Event>, more: seq<Event>, v: View, output: Spec, a: Answer)
    requires Run(cfg, events).pipe.flushing && Run(cfg, events).pipe.hasSpec
    requires forall i :: 0 <= i < |more| ==> !more[i].Reset?
    ensures AfterConvert(cfg, Run(cfg, events + more).pipe, v, output, a).result.Err?
  {
    FlushingLasts(cfg, events, more);
    FlushingRefuses(cfg, Run(cfg, events + more).pipe, v, output, a);
  }

  lemma FlushStays(cfg: Config, w: World, e: Event)
    requires w.pipe.flushing && w.pipe.hasSpec && !e.Reset?
    ensures Step(cfg, w, e).pipe.flushing && Step(cfg, w, e).pipe.hasSpec
  {
  }

  // ---------------------------------------------------------------- the pipeline object

  class Pipeline {
    const config: Config
    var pipe: Pipe

    constructor (cfg: Config)
      ensures config == cfg && pipe == NEW_PIPE
    {
      config, pipe := cfg, NEW_PIPE;
    }

    /** A frame of known shape takes its place on the timeline, unless its end overflows. */
    method PlaceFrame(f: Converted, timestamp: I64, countOverflow: bool) returns (result: Result)
      modifies this
      ensures var failed := old(pipe).(backendFailures := old(pipe).backendFailures + 1);
              Outcome(pipe, result) == Place(old(pipe), f, timestamp, if countOverflow then failed else old(pipe))
    {
      var duration := PipelineNs(f.samples, f.spec.rate);
      if duration.None? || (duration.value > 0 && timestamp > I64_MAX - duration.value) {
        if countOverflow { pipe := pipe.(backendFailures := pipe.backendFailures + 1); }
        return Err(BackendFailure);
      }
      pipe := pipe.(next := timestamp + duration.value, hasTimestamp := true);
      pipe := pipe.(audioFrames := pipe.audioFrames + 1, outputBytes := pipe.outputBytes + f.bytes);
      return Ok(Owned(f.spec, f.samples, f.bytes, timestamp));
    }

    method ConvertAudio(v: View, output: Spec, a: Answer) returns (result: Result)
      modifies this
      ensures Outcome(pipe, result) == AfterConvert(config, old(pipe), v, output, a)
    {
      if !AcceptableInput(v, output) {
        pipe := pipe.(invalidRejected := pipe.invalidRejected + 1);
        return Err(InvalidArgument);
      }
      if v.size > config.maxFrameBytes {
        pipe := pipe.(oversizedRejected := pipe.oversizedRejected + 1);
        return Err(Oversized);
      }
      if pipe.flushing || (pipe.hasSpec && (pipe.inputSpec != v.spec || pipe.outputSpec != output)) {
        pipe := pipe.(invalidRejected := pipe.invalidRejected + 1);
        return Err(InvalidArgument);
      }
      if a.status != 0 {
        pipe := pipe.(backendFailures := pipe.backendFailures + 1);
        return Err(BackendStatus(a.status));
      }
      pipe := pipe.(hasSpec := true, inputSpec := v.spec, outputSpec := output);
      var f := a.frame;
      if f.samples == 0 { return Ok(Owned(output, 0, 0, if pipe.hasTimestamp then pipe.next else v.timestamp)); }
      if f.spec != output || AudioSize(f.spec, f.samples) != Some(f.bytes) {
        pipe := pipe.(backendFailures := pipe.backendFailures + 1);
        return Err(BackendFailure);
      }
      if f.bytes > config.maxFrameBytes {
        pipe := pipe.(oversizedRejected := pipe.oversizedRejected + 1);
        return Err(Oversized);
      }
      var timestamp := v.timestamp;
      if pipe.hasTimestamp {
        if Distance(v.timestamp, pipe.next) <= config.tolerance {
          timestamp := pipe.next;
        } else {
          pipe := pipe.(discontinuities := pipe.discontinuities + 1);
        }
      }
      result := PlaceFrame(f, timestamp, true);
    }

    method FlushAudio(output: Spec, a: Answer) returns (result: Result)
      modifies this
      ensures Outcome(pipe, result) == AfterFlush(config, old(pipe), output, a)
    {
      if !ValidSpec(output) { return Err(InvalidArgument); }
      if pipe.hasSpec && pipe.outputSpec != output {
        pipe := pipe.(invalidRejected := pipe.invalidRejected + 1);
        return Err(InvalidArgument);
      }
      pipe := pipe.(flushing := pipe.hasSpec);
      if a.status != 0 {
        pipe := pipe.(backendFailures := pipe.backendFailures + 1);
        return Err(BackendStatus(a.status));
      }
      var timestamp: I64 := if pipe.hasTimestamp then pipe.next else 0;
      if a.frame.samples == 0 { return Ok(Owned(output, 0, 0, timestamp)); }
      if AudioSize(output, a.frame.samples) != Some(a.frame.bytes) || a.frame.bytes > config.maxFrameBytes {
        pipe := pipe.(backendFailures := pipe.backendFailures + 1);
        return Err(BackendFailure);
      }
      result := PlaceFrame(a.frame.(spec := output), timestamp, false);
    }

    method Reset()
      modifies this
      ensures pipe == AfterReset(old(pipe))
    {
      pipe := pipe.(hasTimestamp := false, next := 0, hasSpec := false, flushing := false);
    }
  }
}
