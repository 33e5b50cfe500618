/** What calls of the media pipeline are answered, told by the calls before them. */
module MediaAnswers {
  import opened Optional
  import opened AudioTiming
  import opened MediaPipeline

  datatype Specs = Specs(input: Spec, output: Spec)

  /** The exact size of so many samples, if it is one. */
  predicate SizeIs(s: Spec, samples: nat, size: nat) {
    0 < samples && samples * s.channels * Width(s.format) == size <= U64_MAX
  }

  predicate GoodView(cfg: Config, v: View, output: Spec) {
    && ValidSpec(v.spec) && ValidSpec(output) && v.present
    && SizeIs(v.spec, v.samples, v.size) && v.size <= cfg.maxFrameBytes
  }

  /** The stream's specs: those of the first good view, since the last reset, that the backend accepted. */
  function StreamSpecs(cfg: Config, events: seq<Event>): Option<Specs> {
    if events == [] then None
    else
      var before, e := events[..|events| - 1], events[|events| - 1];
      var specs := StreamSpecs(cfg, before);
      match e
      case Reset => None
      case Flush(_, _) => specs
      case Convert(v, output, a) =>
        if specs.None? && !Sealed(cfg, before) && GoodView(cfg, v, output) && a.status == 0
        then Some(Specs(v.spec, output)) else specs
  }

  /** A started stream was flushed since the last reset. */
  predicate Sealed(cfg: Config, events: seq<Event>) {
    events != [] &&
    var before, e := events[..|events| - 1], events[|events| - 1];
    match e
    case Reset => false
    case Convert(_, _, _) => Sealed(cfg, before)
    case Flush(output, _) =>
      Sealed(cfg, before) || (StreamSpecs(cfg, before).Some? && StreamSpecs(cfg, before).value.output == output)
  }

  /** A frame was handed out since the last reset. */
  predicate Timed(cfg: Config, events: seq<Event>) {
    events != [] &&
    var before, e := events[..|events| - 1], events[|events| - 1];
    !e.Reset? && (Timed(cfg, before) || HandsOut(Respond(cfg, Run(cfg, before).pipe, e).result))
  }

  ghost predicate Remembered(cfg: Config, events: seq<Event>, p: Pipe) {
    && p.hasSpec == StreamSpecs(cfg, events).Some? && p.flushing == Sealed(cfg, events)
    && p.hasTimestamp == Timed(cfg, events)
    && (p.hasSpec ==> StreamSpecs(cfg, events).value == Specs(p.inputSpec, p.outputSpec) && ValidSpec(p.outputSpec))
    && (p.flushing ==> p.hasSpec)
  }

  lemma SizesAgree(s: Spec, samples: nat, size: nat)
    requires ValidSpec(s)
    ensures AudioSize(s, samples) == Some(size) <==> SizeIs(s, samples, size)
  {
    SizeIsExact(s, samples);
  }

  lemma ViewsAgree(cfg: Config, v: View, output: Spec)
    ensures AcceptableInput(v, output) && v.size <= cfg.maxFrameBytes <==> GoodView(cfg, v, output)
  {
    if ValidSpec(v.spec) { SizesAgree(v.spec, v.samples, v.size); }
  }

  lemma ConvertMarks(cfg: Config, p: Pipe, v: View, output: Spec, a: Answer, q: Pipe)
    requires q == AfterConvert(cfg, p, v, output, a).pipe && (p.flushing ==> p.hasSpec)
    ensures q.flushing == p.flushing
    ensures q.hasTimestamp == (p.hasTimestamp || HandsOut(AfterConvert(cfg, p, v, output, a).result))
    ensures var starts := !p.hasSpec && GoodView(cfg, v, output) && a.status == 0;
            && q.hasSpec == (p.hasSpec || starts)
            && (p.hasSpec ==> q.inputSpec == p.inputSpec && q.outputSpec == p.outputSpec)
            && (starts ==> q.inputSpec == v.spec && q.outputSpec == output)
  {
    ViewsAgree(cfg, v, output);
  }

  lemma FlushMarks(cfg: Config, p: Pipe, output: Spec, a: Answer, q: Pipe)
    requires q == AfterFlush(cfg, p, output, a).pipe
    requires (p.hasSpec ==> ValidSpec(p.outputSpec)) && (p.flushing ==> p.hasSpec)
    ensures q.hasSpec == p.hasSpec && q.inputSpec == p.inputSpec && q.outputSpec == p.outputSpec
    ensures q.hasTimestamp == (p.hasTimestamp || HandsOut(AfterFlush(cfg, p, output, a).result))
    ensures q.flushing == (p.flushing || (p.hasSpec && p.outputSpec == output))
  {
  }

  lemma {:induction false} RunIsRemembered(cfg: Config, events: seq<Event>)
    ensures Remembered(cfg, events, Run(cfg, events).pipe)
  {
    if events != [] {
      var before, e := events[..|events| - 1], events[|events| - 1];
      var p := Run(cfg, before).pipe;
      RunIsRemembered(cfg, before);
      match e
      case Convert(v, output, a) => ConvertMarks(cfg, p, v, output, a, Run(cfg, events).pipe);
      case Flush(output, a) => FlushMarks(cfg, p, output, a, Run(cfg, events).pipe);
      case Reset =>
    }
  }

  /** Where the frame is put: on the timeline's end if that is within the tolerance, otherwise where it was asked. */
  function PlacedAt(cfg: Config, events: seq<Event>, asked: I64): int {
    var frames := Run(cfg, events).frames;
    if Timed(cfg, events) && frames != [] && Near(cfg, asked, End(frames[|frames| - 1]))
    then End(frames[|frames| - 1]) else asked
  }

  predicate Near(cfg: Config, a: int, b: int) {
    a - b <= cfg.tolerance && b - a <= cfg.tolerance
  }

  /** The backend's frame is what it should be, and its end still fits. */
  predicate GoodFrame(cfg: Config, output: Spec, f: Converted, at: int)
    requires ValidSpec(output)
  {
    && f.spec == output && SizeIs(output, f.samples, f.bytes) && f.bytes <= cfg.maxFrameBytes
    && f.samples <= I64_MAX && Exact(f.samples, output.rate) <= I64_MAX && at + Exact(f.samples, output.rate) <= I64_MAX
  }

  lemma PlacedIsJoined(cfg: Config, events: seq<Event>, asked: I64)
    ensures PlacedAt(cfg, events, asked) == Joined(cfg, Run(cfg, events).pipe, asked)
  {
    var w := Run(cfg, events);
    RunIsRemembered(cfg, events);
    TimelineIsTiled(cfg, events);
    if w.pipe.hasTimestamp { DistanceIsExact(asked, w.pipe.next); }
  }

  lemma ConversionAnswers(cfg: Config, p: Pipe, v: View, output: Spec, f: Converted)
    requires ValidSpec(output) && f.samples > 0
    ensures var r, at := AfterConversion(cfg, p, v, output, f).result, Joined(cfg, p, v.timestamp);
            && (r.Ok? <==> GoodFrame(cfg, output, f, at))
            && (r.Ok? ==> r.frame == Owned(output, f.samples, f.bytes, at))
  {
    var at := Joined(cfg, p, v.timestamp);
    var q := if p.hasTimestamp && Distance(v.timestamp, p.next) > cfg.tolerance
             then p.(discontinuities := p.discontinuities + 1) else p;
    SizesAgree(output, f.samples, f.bytes);
    PlaceIsExact(q, f.(spec := output), at, q.(backendFailures := q.backendFailures + 1));
  }

  /**
   A conversion succeeds exactly if the view is good and of the stream's own specs, the stream was
   not flushed, and the backend answers well: with nothing, or with a frame of the output spec
   and its exact size, within the limit, whose end fits. The frame is then the backend's, put on
   the timeline if it was asked for near its end and where it was asked otherwise.
   */
  lemma ConvertedIff(cfg: Config, events: seq<Event>, v: View, output: Spec, a: Answer)
    ensures var r, specs := AfterConvert(cfg, Run(cfg, events).pipe, v, output, a).result, StreamSpecs(cfg, events);
            && (r.Ok? <==>
                && GoodView(cfg, v, output) && !Sealed(cfg, events)
                && (specs.Some? ==> specs.value == Specs(v.spec, output)) && a.status == 0
                && (a.frame.samples == 0 || GoodFrame(cfg, output, a.frame, PlacedAt(cfg, events, v.timestamp))))
            && (r.Ok? && a.frame.samples > 0 ==>
                r.frame == Owned(output, a.frame.samples, a.frame.bytes, PlacedAt(cfg, events, v.timestamp)))
  {
    var p := Run(cfg, events).pipe;
    RunIsRemembered(cfg, events);
    ViewsAgree(cfg, v, output);
    PlacedIsJoined(cfg, events, v.timestamp);
    if GoodView(cfg, v, output) && a.frame.samples > 0 {
      var q := p.(hasSpec := true, inputSpec := v.spec, outputSpec := output);
      ConversionAnswers(cfg, q, v, output, a.frame);
    }
  }

  /** A flush puts what the backend still held at the timeline's end, or at zero without a timeline. */
  function FlushedAt(cfg: Config, events: seq<Event>): int {
    var frames := Run(cfg, events).frames;
    if Timed(cfg, events) && frames != [] then End(frames[|frames| - 1]) else 0
  }

  /**
   A flush succeeds exactly if it names the stream's output spec, or any valid one before the
   stream has one, and the backend answers well.
   */
  lemma FlushedIff(cfg: Config, events: seq<Event>, output: Spec, a: Answer)
    ensures var r, specs := AfterFlush(cfg, Run(cfg, events).pipe, output, a).result, StreamSpecs(cfg, events);
            && (r.Ok? <==>
                && ValidSpec(output) && (specs.Some? ==> specs.value.output == output) && a.status == 0
                && (a.frame.samples == 0
                    || GoodFrame(cfg, output, a.frame.(spec := output), FlushedAt(cfg, events))))
            && (r.Ok? && a.frame.samples > 0 ==>
                r.frame == Owned(output, a.frame.samples, a.frame.bytes, FlushedAt(cfg, events)))
  {
    var p := Run(cfg, events).pipe;
    RunIsRemembered(cfg, events);
    TimelineIsTiled(cfg, events);
    if ValidSpec(output) && a.frame.samples > 0 {
      var q := p.(flushing := p.hasSpec);
      SizesAgree(output, a.frame.samples, a.frame.bytes);
      PlaceIsExact(q, a.frame.(spec := output), if p.hasTimestamp then p.next else 0, q);
    }
  }

  // ---------------------------------------------------------------- the counters

  /** Refusals of bad arguments, of oversized frames, and failures of the backend; bytes handed out. */
  datatype Tally = Tally(invalid: nat, oversized: nat, failed: nat, bytes: nat)

  /** The backend gave a flush a frame of the wrong size or too large, which counts as its failure. */
  predicate Misshapen(cfg: Config, output: Spec, f: Converted) {
    f.samples > 0 && (!SizeIs(output, f.samples, f.bytes) || f.bytes > cfg.maxFrameBytes)
  }

  /** A refusal is counted as what it is, but for flushes with an invalid spec or whose frame has no room in time. */
  predicate IsCounted(cfg: Config, e: Event, failure: Failure) {
    match e
    case Reset => false
    case Convert(_, _, _) => true
    case Flush(output, a) => ValidSpec(output) && (failure.BackendFailure? ==> Misshapen(cfg, output, a.frame))
  }

  function Counted(cfg: Config, t: Tally, e: Event, r: Result): Tally {
    match r
    case Ok(frame) => t.(bytes := t.bytes + frame.bytes)
    case Err(failure) =>
      if !IsCounted(cfg, e, failure) then t
      else match failure
           case InvalidArgument => t.(invalid := t.invalid + 1)
           case Oversized => t.(oversized := t.oversized + 1)
           case BackendStatus(_) => t.(failed := t.failed + 1)
           case BackendFailure => t.(failed := t.failed + 1)
  }

  function TallyOf(cfg: Config, events: seq<Event>): Tally {
    if events == [] then Tally(0, 0, 0, 0)
    else
      var before, e := events[..|events| - 1], events[|events| - 1];
      Counted(cfg, TallyOf(cfg, before), e, Respond(cfg, Run(cfg, before).pipe, e).result)
  }

  function TallyIn(p: Pipe): Tally {
    Tally(p.invalidRejected, p.oversizedRejected, p.backendFailures, p.outputBytes)
  }

  lemma ConvertCounts(cfg: Config, p: Pipe, v: View, output: Spec, a: Answer)
    ensures var o := AfterConvert(cfg, p, v, output, a);
            TallyIn(o.pipe) == Counted(cfg, TallyIn(p), Convert(v, output, a), o.result)
  {
  }

  lemma FlushCounts(cfg: Config, p: Pipe, output: Spec, a: Answer)
    ensures var o := AfterFlush(cfg, p, output, a);
            TallyIn(o.pipe) == Counted(cfg, TallyIn(p), Flush(output, a), o.result)
  {
    if ValidSpec(output) { SizesAgree(output, a.frame.samples, a.frame.bytes); }
  }

  /** The counters of a pipeline are those of the answers it gave. */
  lemma {:induction false} CountersAreExact(cfg: Config, events: seq<Event>)
    ensures TallyIn(Run(cfg, events).pipe) == TallyOf(cfg, events)
  {
    if events != [] {
      var before, e := events[..|events| - 1], events[|events| - 1];
      CountersAreExact(cfg, before);
      match e
      case Convert(v, output, a) => ConvertCounts(cfg, Run(cfg, before).pipe, v, output, a);
      case Flush(output, a) => FlushCounts(cfg, Run(cfg, before).pipe, output, a);
      case Reset =>
    }
  }
}
