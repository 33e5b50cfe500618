/**
 The bounded queue of one edge: what each lock-protected pass of push, pop and close does to
 its deques and saturating counters. A producer that finds a blocking queue full waits, and
 when woken makes the same pass again.
 */
module EdgeQueueModel {
  import opened QueuePolicies
  import opened AudioTiming

  datatype Frame =
    | AudioFrame(id: nat, size: U64, samples: U64, rate: nat)
    | ByteFrame(id: nat, size: U64)
    | TextFrame(id: nat, size: U64)
    | OtherFrame(id: nat)

  datatype Policy = Policy(capacity: nat, overflow: Overflow)

  datatype PushOutcome = Enqueued | EnqueuedAfterDroppingOldest | DroppedNewest | Waits | Closed | OverflowAbort
  datatype PopOutcome = Got(frame: Frame) | Nothing | Finished

  datatype Queue = Queue(
    frames: seq<Frame>,
    enqueuedAt: seq<nat>,
    closed: bool,
    highWatermark: nat,
    enqueueTotal: nat,
    dequeueTotal: nat,
    dropTotal: nat,
    fullTotal: nat,
    payloadBytes: nat,
    audioNs: nat)

  const EMPTY_QUEUE := Queue([], [], false, 0, 0, 0, 0, 0, 0, 0)

  function SatAdd(a: nat, b: nat): nat {
    if a + b <= U64_MAX then a + b else U64_MAX
  }

  function PayloadOf(f: Frame): nat {
    if f.OtherFrame? then 0 else f.size
  }

  function AudioNsOf(f: Frame): nat {
    if f.AudioFrame? then MeasuredNs(f.samples, f.rate) else 0
  }

  function Appended(q: Queue, f: Frame, at: nat): Queue {
    q.(frames := q.frames + [f],
       enqueuedAt := q.enqueuedAt + [at],
       enqueueTotal := SatAdd(q.enqueueTotal, 1),
       payloadBytes := SatAdd(q.payloadBytes, PayloadOf(f)),
       audioNs := SatAdd(q.audioNs, AudioNsOf(f)),
       highWatermark := if |q.frames| + 1 > q.highWatermark then |q.frames| + 1 else q.highWatermark)
  }

  datatype Pushed = Pushed(queue: Queue, outcome: PushOutcome)

  function AfterPush(p: Policy, q: Queue, f: Frame, at: nat): Pushed {
    if q.closed then Pushed(q, Closed)
    else if |q.frames| != p.capacity then Pushed(Appended(q, f, at), Enqueued)
    else
      var full := q.(fullTotal := SatAdd(q.fullTotal, 1));
      match p.overflow
      case Block => Pushed(full, Waits)
      case DropOldest =>
        Pushed(Appended(full.(frames := Tail(q.frames), enqueuedAt := Tail(q.enqueuedAt),
                              dropTotal := SatAdd(q.dropTotal, 1)), f, at),
               EnqueuedAfterDroppingOldest)
      case DropNewest => Pushed(full.(dropTotal := SatAdd(q.dropTotal, 1)), DroppedNewest)
      case AbortRun => Pushed(full, OverflowAbort)
  }

  function Tail<T>(s: seq<T>): seq<T> {
    if s == [] then [] else s[1..]
  }

  datatype Popped = Popped(queue: Queue, outcome: PopOutcome)

  function AfterPop(q: Queue): Popped {
    if q.frames != [] then
      Popped(q.(frames := q.frames[1..], enqueuedAt := Tail(q.enqueuedAt), dequeueTotal := SatAdd(q.dequeueTotal, 1)),
             Got(q.frames[0]))
    else Popped(q, if q.closed then Finished else Nothing)
  }

  /** Closing is monotone: a later discard escalates an earlier drain, never the other way round. */
  function AfterClose(q: Queue, mode: DrainMode): Queue {
    if mode.Discard? && q.frames != [] then
      q.(closed := true, frames := [], enqueuedAt := [], dropTotal := SatAdd(q.dropTotal, |q.frames|))
    else if mode.Discard? then q.(closed := true, enqueuedAt := [])
    else q.(closed := true)
  }

  /** An edge policy that drops a frame before it reaches the queue is counted with the other drops. */
  function AfterPolicyDrop(q: Queue): Queue {
    q.(dropTotal := SatAdd(q.dropTotal, 1))
  }

  class EdgeQueue {
    const policy: Policy
    var frames: seq<Frame>
    var enqueuedAt: seq<nat>
    var closed: bool
    var highWatermark: nat
    var enqueueTotal: nat
    var dequeueTotal: nat
    var dropTotal: nat
    var fullTotal: nat
    var payloadBytes: nat
    var audioNs: nat

    constructor (p: Policy)
      requires p.capacity > 0
      ensures policy == p && View() == EMPTY_QUEUE
    {
      policy := p;
      frames, enqueuedAt, closed := [], [], false;
      highWatermark, enqueueTotal, dequeueTotal, dropTotal, fullTotal, payloadBytes, audioNs := 0, 0, 0, 0, 0, 0, 0;
    }

    ghost function View(): Queue
      reads this
    {
      Queue(frames, enqueuedAt, closed, highWatermark, enqueueTotal, dequeueTotal, dropTotal, fullTotal,
            payloadBytes, audioNs)
    }

    method Enqueue(f: Frame, at: nat)
      modifies this
      ensures View() == Appended(old(View()), f, at)
    {
      frames := frames + [f];
      enqueuedAt := enqueuedAt + [at];
      enqueueTotal := SatAdd(enqueueTotal, 1);
      payloadBytes := SatAdd(payloadBytes, PayloadOf(f));
      audioNs := SatAdd(audioNs, AudioNsOf(f));
      if |frames| > highWatermark { highWatermark := |frames|; }
    }

    /** One pass of push under the lock. */
    method Push(f: Frame, at: nat) returns (outcome: PushOutcome)
      modifies this
      ensures Pushed(View(), outcome) == AfterPush(policy, old(View()), f, at)
    {
      if closed { return Closed; }
      if |frames| == policy.capacity {
        fullTotal := SatAdd(fullTotal, 1);
        match policy.overflow
        case Block =>
          return Waits;
        case DropOldest =>
          frames := Tail(frames);
          enqueuedAt := Tail(enqueuedAt);
          dropTotal := SatAdd(dropTotal, 1);
          Enqueue(f, at);
          return EnqueuedAfterDroppingOldest;
        case DropNewest =>
          dropTotal := SatAdd(dropTotal, 1);
          return DroppedNewest;
        case AbortRun =>
          return OverflowAbort;
      }
      Enqueue(f, at);
      return Enqueued;
    }

    method TryPop() returns (outcome: PopOutcome)
      modifies this
      ensures Popped(View(), outcome) == AfterPop(old(View()))
    {
      if frames != [] {
        outcome := Got(frames[0]);
        frames := frames[1..];
        enqueuedAt := Tail(enqueuedAt);
        dequeueTotal := SatAdd(dequeueTotal, 1);
      } else {
        outcome := if closed then Finished else Nothing;
      }
    }

    method RecordDrop()
      modifies this
      ensures View() == AfterPolicyDrop(old(View()))
    {
      dropTotal := SatAdd(dropTotal, 1);
    }

    method Close(mode: DrainMode)
      modifies this
      ensures View() == AfterClose(old(View()), mode)
    {
      closed := true;
      if mode == Discard {
        var discarded := |frames|;
        frames, enqueuedAt := [], [];
        if discarded != 0 { dropTotal := SatAdd(dropTotal, discarded); }
      }
    }
  }
}

/** The edge queue is a FIFO: what holds on every run of its operations. */
module EdgeQueueRuns {
  import opened QueuePolicies
  import opened AudioTiming
  import opened EdgeQueueModel

  datatype Event = Push(frame: Frame, at: nat) | Pop | PolicyDrop | Close(mode: DrainMode)

  datatype Entry = Entry(frame: Frame, at: nat)

  /** How an accepted frame left the queue. */
  datatype Fate = Delivered | Evicted | Discarded

  /**
   The queue with its history: every accepted entry, the fate of those that left, what
   consumers got, and how many frames were refused by a full queue or dropped by the policy.
   */
  datatype World = World(queue: Queue, accepted: seq<Entry>, fates: seq<Fate>, received: seq<Frame>,
                         refused: nat, policyDropped: nat)

  const FRESH := World(EMPTY_QUEUE, [], [], [], 0, 0)

  function Repeat(fate: Fate, n: nat): seq<Fate> {
    seq(n, i => fate)
  }

  predicate Accepts(o: PushOutcome) {
    o.Enqueued? || o.EnqueuedAfterDroppingOldest?
  }

  function PushStep(p: Policy, w: World, f: Frame, at: nat): World {
    var r := AfterPush(p, w.queue, f, at);
    w.(queue := r.queue,
       accepted := if Accepts(r.outcome) then w.accepted + [Entry(f, at)] else w.accepted,
       fates := if r.outcome.EnqueuedAfterDroppingOldest? then w.fates + [Evicted] else w.fates,
       refused := if r.outcome.DroppedNewest? then w.refused + 1 else w.refused)
  }

  function PopStep(w: World): World {
    var r := AfterPop(w.queue);
    w.(queue := r.queue,
       fates := if r.outcome.Got? then w.fates + [Delivered] else w.fates,
       received := if r.outcome.Got? then w.received + [r.outcome.frame] else w.received)
  }

  function CloseStep(w: World, mode: DrainMode): World {
    w.(queue := AfterClose(w.queue, mode),
       fates := if mode.Discard? then w.fates + Repeat(Discarded, |w.queue.frames|) else w.fates)
  }

  function PolicyDropStep(w: World): World {
    w.(queue := AfterPolicyDrop(w.queue), policyDropped := w.policyDropped + 1)
  }

  function Step(p: Policy, w: World, e: Event): World {
    match e
    case Push(f, at) => PushStep(p, w, f, at)
    case Pop => PopStep(w)
    case PolicyDrop => PolicyDropStep(w)
    case Close(mode) => CloseStep(w, mode)
  }

  function Run(p: Policy, events: seq<Event>): World {
    if events == [] then FRESH else Step(p, Run(p, events[..|events| - 1]), events[|events| - 1])
  }

  // ---------------------------------------------------------------- the FIFO

  /** The frames a consumer must have received, given the fates: the delivered ones, in order. */
  function Selected(accepted: seq<Entry>, fates: seq<Fate>): seq<Frame>
    requires |fates| <= |accepted|
  {
    if fates == [] then []
    else
      var n := |fates| - 1;
      Selected(accepted, fates[..n]) + (if fates[n].Delivered? then [accepted[n].frame] else [])
  }

  function CountFate(fates: seq<Fate>, fate: Fate): nat {
    if fates == [] then 0 else CountFate(fates[..|fates| - 1], fate) + (if fates[|fates| - 1] == fate then 1 else 0)
  }

  /** Entry i of the queue. */
  predicate ResidentAt(w: World, i: nat)
    requires |w.fates| + |w.queue.frames| == |w.accepted| && |w.queue.enqueuedAt| == |w.queue.frames|
  {
    i < |w.queue.frames| ==> w.accepted[|w.fates| + i] == Entry(w.queue.frames[i], w.queue.enqueuedAt[i])
  }

  ghost predicate Fifo(p: Policy, w: World) {
    && |w.queue.enqueuedAt| == |w.queue.frames| <= p.capacity
    && |w.fates| + |w.queue.frames| == |w.accepted|
    && (forall i: nat {:trigger ResidentAt(w, i)} :: ResidentAt(w, i))
    && w.received == Selected(w.accepted, w.fates)
    && |w.queue.frames| <= w.queue.highWatermark <= p.capacity
  }

  lemma {:induction false} SelectedIgnoresLater(accepted: seq<Entry>, more: seq<Entry>, fates: seq<Fate>)
    requires |fates| <= |accepted|
    ensures Selected(accepted + more, fates) == Selected(accepted, fates)
  {
    if fates != [] { SelectedIgnoresLater(accepted, more, fates[..|fates| - 1]); }
  }

  lemma SelectedAppend(accepted: seq<Entry>, fates: seq<Fate>, fate: Fate)
    requires |fates| < |accepted|
    ensures Selected(accepted, fates + [fate]) ==
            Selected(accepted, fates) + (if fate.Delivered? then [accepted[|fates|].frame] else [])
  {
    assert (fates + [fate])[..|fates|] == fates;
  }

  lemma {:induction false} SelectedDiscards(accepted: seq<Entry>, fates: seq<Fate>, n: nat)
    requires |fates| + n <= |accepted|
    ensures Selected(accepted, fates + Repeat(Discarded, n)) == Selected(accepted, fates)
  {
    if n == 0 {
      assert fates + Repeat(Discarded, 0) == fates;
    } else {
      SelectedDiscards(accepted, fates, n - 1);
      assert fates + Repeat(Discarded, n) == (fates + Repeat(Discarded, n - 1)) + [Discarded];
      SelectedAppend(accepted, fates + Repeat(Discarded, n - 1), Discarded);
    }
  }

  lemma EnqueueKeepsFifo(p: Policy, w: World, f: Frame, at: nat)
    requires Fifo(p, w) && AfterPush(p, w.queue, f, at).outcome.Enqueued?
    ensures Fifo(p, PushStep(p, w, f, at))
  {
    var v := PushStep(p, w, f, at);
    SelectedIgnoresLater(w.accepted, [Entry(f, at)], w.fates);
    forall i: nat ensures ResidentAt(v, i) { assert ResidentAt(w, i); }
  }

  lemma EvictKeepsFifo(p: Policy, w: World, f: Frame, at: nat)
    requires p.capacity > 0 && Fifo(p, w) && AfterPush(p, w.queue, f, at).outcome.EnqueuedAfterDroppingOldest?
    ensures Fifo(p, PushStep(p, w, f, at))
  {
    var v := PushStep(p, w, f, at);
    SelectedIgnoresLater(w.accepted, [Entry(f, at)], w.fates);
    SelectedAppend(v.accepted, w.fates, Evicted);
    forall i: nat ensures ResidentAt(v, i) { assert ResidentAt(w, i + 1); }
  }

  lemma PushKeepsFifo(p: Policy, w: World, f: Frame, at: nat)
    requires p.capacity > 0 && Fifo(p, w)
    ensures Fifo(p, PushStep(p, w, f, at))
  {
    var o := AfterPush(p, w.queue, f, at).outcome;
    if o.Enqueued? { EnqueueKeepsFifo(p, w, f, at); }
    else if o.EnqueuedAfterDroppingOldest? { EvictKeepsFifo(p, w, f, at); }
    else {
      var v := PushStep(p, w, f, at);
      forall i: nat ensures ResidentAt(v, i) { assert ResidentAt(w, i); }
    }
  }

  lemma PopKeepsFifo(p: Policy, w: World)
    requires Fifo(p, w)
    ensures Fifo(p, PopStep(w))
  {
    var v := PopStep(w);
    if w.queue.frames != [] {
      assert ResidentAt(w, 0);
      SelectedAppend(w.accepted, w.fates, Delivered);
    }
    forall i: nat ensures ResidentAt(v, i) { assert ResidentAt(w, i + 1) && ResidentAt(w, i); }
  }

  lemma PolicyDropKeepsFifo(p: Policy, w: World)
    requires Fifo(p, w)
    ensures Fifo(p, PolicyDropStep(w))
  {
    var v := PolicyDropStep(w);
    forall i: nat ensures ResidentAt(v, i) { assert ResidentAt(w, i); }
  }

  lemma CloseKeepsFifo(p: Policy, w: World, mode: DrainMode)
    requires Fifo(p, w)
    ensures Fifo(p, CloseStep(w, mode))
  {
    var v := CloseStep(w, mode);
    if mode.Discard? { SelectedDiscards(w.accepted, w.fates, |w.queue.frames|); }
    forall i: nat ensures ResidentAt(v, i) { assert ResidentAt(w, i); }
  }

  /**
   On every run the queue holds exactly the accepted entries that have not left, in order and
   with their own timestamps, within capacity, and consumers received the delivered ones in order.
   */
  lemma {:induction false} QueueIsFifo(p: Policy, events: seq<Event>)
    requires p.capacity > 0
    ensures Fifo(p, Run(p, events))
  {
    if events != [] {
      var w := Run(p, events[..|events| - 1]);
      QueueIsFifo(p, events[..|events| - 1]);
      match events[|events| - 1]
      case Push(f, at) => PushKeepsFifo(p, w, f, at);
      case Pop => PopKeepsFifo(p, w);
      case PolicyDrop => PolicyDropKeepsFifo(p, w);
      case Close(mode) => CloseKeepsFifo(p, w, mode);
    } else {
      assert forall i: nat :: ResidentAt(FRESH, i);
    }
  }

  // ---------------------------------------------------------------- the counters

  function Capped(n: nat): nat {
    if n <= U64_MAX then n else U64_MAX
  }

  predicate Counted(w: World) {
    CountedAs(w.queue, |w.accepted|, CountFate(w.fates, Delivered), Lost(w))
  }

  lemma CountAppend(fates: seq<Fate>, fate: Fate, which: Fate)
    ensures CountFate(fates + [fate], which) == CountFate(fates, which) + (if fate == which then 1 else 0)
  {
    assert (fates + [fate])[..|fates|] == fates;
  }

  lemma {:induction false} CountDiscards(fates: seq<Fate>, n: nat, which: Fate)
    ensures CountFate(fates + Repeat(Discarded, n), which) ==
            CountFate(fates, which) + (if which.Discarded? then n else 0)
  {
    if n == 0 {
      assert fates + Repeat(Discarded, 0) == fates;
    } else {
      CountDiscards(fates, n - 1, which);
      assert fates + Repeat(Discarded, n) == (fates + Repeat(Discarded, n - 1)) + [Discarded];
      CountAppend(fates + Repeat(Discarded, n - 1), Discarded, which);
    }
  }

  lemma CappedAdd(n: nat, k: nat)
    ensures SatAdd(Capped(n), k) == Capped(n + k)
  {
  }

  predicate CountedAs(q: Queue, accepted: nat, delivered: nat, dropped: nat) {
    q.enqueueTotal == Capped(accepted) && q.dequeueTotal == Capped(delivered) && q.dropTotal == Capped(dropped)
  }

  lemma PushCounts(p: Policy, q: Queue, f: Frame, at: nat, accepted: nat, delivered: nat, dropped: nat)
    requires CountedAs(q, accepted, delivered, dropped)
    ensures var r := AfterPush(p, q, f, at);
            CountedAs(r.queue, accepted + (if Accepts(r.outcome) then 1 else 0), delivered,
                      dropped + (if r.outcome.EnqueuedAfterDroppingOldest? || r.outcome.DroppedNewest? then 1 else 0))
  {
    CappedAdd(accepted, 1);
    CappedAdd(dropped, 1);
  }

  function Lost(w: World): nat {
    CountFate(w.fates, Evicted) + CountFate(w.fates, Discarded) + w.refused + w.policyDropped
  }

  lemma PushKeepsCounted(p: Policy, w: World, f: Frame, at: nat)
    requires Counted(w)
    ensures Counted(PushStep(p, w, f, at))
  {
    PushCounts(p, w.queue, f, at, |w.accepted|, CountFate(w.fates, Delivered), Lost(w));
    CountAppend(w.fates, Evicted, Delivered);
    CountAppend(w.fates, Evicted, Evicted);
    CountAppend(w.fates, Evicted, Discarded);
  }

  lemma PopCounts(q: Queue, accepted: nat, delivered: nat, dropped: nat)
    requires CountedAs(q, accepted, delivered, dropped)
    ensures CountedAs(AfterPop(q).queue, accepted, delivered + (if AfterPop(q).outcome.Got? then 1 else 0), dropped)
  {
    CappedAdd(delivered, 1);
  }

  lemma PopKeepsCounted(w: World)
    requires Counted(w)
    ensures Counted(PopStep(w))
  {
    PopCounts(w.queue, |w.accepted|, CountFate(w.fates, Delivered), Lost(w));
    CountAppend(w.fates, Delivered, Delivered);
    CountAppend(w.fates, Delivered, Evicted);
    CountAppend(w.fates, Delivered, Discarded);
  }

  lemma CloseKeepsCounted(w: World, mode: DrainMode)
    requires Counted(w)
    ensures Counted(CloseStep(w, mode))
  {
    var n := |w.queue.frames|;
    CappedAdd(Lost(w), n);
    CountDiscards(w.fates, n, Delivered);
    CountDiscards(w.fates, n, Evicted);
    CountDiscards(w.fates, n, Discarded);
  }

  lemma StepKeepsCounted(p: Policy, w: World, e: Event)
    requires Counted(w)
    ensures Counted(Step(p, w, e))
  {
    match e
    case Push(f, at) => PushKeepsCounted(p, w, f, at);
    case Pop => PopKeepsCounted(w);
    case PolicyDrop => CappedAdd(Lost(w), 1);
    case Close(mode) => CloseKeepsCounted(w, mode);
  }

  lemma {:induction false} CountersAreExact(p: Policy, events: seq<Event>)
    ensures Counted(Run(p, events))
  {
    if events != [] {
      CountersAreExact(p, events[..|events| - 1]);
      StepKeepsCounted(p, Run(p, events[..|events| - 1]), events[|events| - 1]);
    }
  }

  function PayloadSum(entries: seq<Entry>): nat {
    if entries == [] then 0 else PayloadSum(entries[..|entries| - 1]) + PayloadOf(entries[|entries| - 1].frame)
  }

  function AudioSum(entries: seq<Entry>): nat {
    if entries == [] then 0 else AudioSum(entries[..|entries| - 1]) + AudioNsOf(entries[|entries| - 1].frame)
  }

  predicate Measured(w: World) {
    w.queue.payloadBytes == Capped(PayloadSum(w.accepted)) && w.queue.audioNs == Capped(AudioSum(w.accepted))
  }

  lemma PushAdds(p: Policy, q: Queue, f: Frame, at: nat, payload: nat, audio: nat)
    requires q.payloadBytes == Capped(payload) && q.audioNs == Capped(audio)
    ensures var r := AfterPush(p, q, f, at);
            && r.queue.payloadBytes == Capped(payload + (if Accepts(r.outcome) then PayloadOf(f) else 0))
            && r.queue.audioNs == Capped(audio + (if Accepts(r.outcome) then AudioNsOf(f) else 0))
  {
    CappedAdd(payload, PayloadOf(f));
    CappedAdd(audio, AudioNsOf(f));
  }

  lemma PushMeasures(p: Policy, w: World, f: Frame, at: nat)
    requires Measured(w)
    ensures Measured(PushStep(p, w, f, at))
  {
    PushAdds(p, w.queue, f, at, PayloadSum(w.accepted), AudioSum(w.accepted));
    SumsAppend(w.accepted, Entry(f, at));
  }

  lemma SumsAppend(entries: seq<Entry>, e: Entry)
    ensures PayloadSum(entries + [e]) == PayloadSum(entries) + PayloadOf(e.frame)
    ensures AudioSum(entries + [e]) == AudioSum(entries) + AudioNsOf(e.frame)
  {
    assert (entries + [e])[..|entries|] == entries;
  }

  /** The payload and audio totals are the sums over everything ever accepted, up to saturation. */
  lemma {:induction false} MeasuresAreExact(p: Policy, events: seq<Event>)
    ensures Measured(Run(p, events))
  {
    if events != [] {
      MeasuresAreExact(p, events[..|events| - 1]);
      match events[|events| - 1]
      case Push(f, at) => PushMeasures(p, Run(p, events[..|events| - 1]), f, at);
      case _ =>
    }
  }

  lemma {:induction false} FatesPartition(fates: seq<Fate>)
    ensures CountFate(fates, Delivered) + CountFate(fates, Evicted) + CountFate(fates, Discarded) == |fates|
  {
    if fates != [] { FatesPartition(fates[..|fates| - 1]); }
  }

  /**
   Below saturation: enqueued = dequeued + resident + evicted + discarded; refusals and
   policy drops are counted apart.
   */
  lemma FramesAreConserved(p: Policy, events: seq<Event>)
    requires p.capacity > 0 && |Run(p, events).accepted| <= U64_MAX
    ensures var w := Run(p, events);
            w.queue.enqueueTotal == w.queue.dequeueTotal + |w.queue.frames|
              + CountFate(w.fates, Evicted) + CountFate(w.fates, Discarded)
    ensures var w := Run(p, events);
            w.queue.dropTotal < U64_MAX ==>
              w.queue.dropTotal == CountFate(w.fates, Evicted) + CountFate(w.fates, Discarded)
                + w.refused + w.policyDropped
  {
    QueueIsFifo(p, events);
    CountersAreExact(p, events);
    FatesPartition(Run(p, events).fates);
  }

  // ---------------------------------------------------------------- losing nothing, and closing

  ghost predicate NeverDiscards(events: seq<Event>) {
    forall i :: 0 <= i < |events| ==> events[i] != Close(Discard)
  }

  ghost predicate AllDelivered(fates: seq<Fate>) {
    forall i :: 0 <= i < |fates| ==> fates[i].Delivered?
  }

  lemma {:induction false} BlockDeliversAll(p: Policy, events: seq<Event>)
    requires p.overflow.Block? && NeverDiscards(events)
    ensures AllDelivered(Run(p, events).fates) && Run(p, events).refused == 0
  {
    if events != [] {
      var rest := events[..|events| - 1];
      forall i | 0 <= i < |rest| ensures rest[i] != Close(Discard) { assert rest[i] == events[i]; }
      assert NeverDiscards(rest);
      BlockDeliversAll(p, rest);
      assert events[|events| - 1] != Close(Discard);
    }
  }

  function FramesOf(entries: seq<Entry>): seq<Frame> {
    seq(|entries|, i requires 0 <= i < |entries| => entries[i].frame)
  }

  lemma {:induction false} SelectedAll(accepted: seq<Entry>, fates: seq<Fate>)
    requires |fates| <= |accepted| && AllDelivered(fates)
    ensures Selected(accepted, fates) == FramesOf(accepted[..|fates|])
  {
    if fates != [] {
      var n := |fates| - 1;
      SelectedAll(accepted, fates[..n]);
      assert accepted[..n + 1] == accepted[..n] + [accepted[n]];
    }
  }

  /** A blocking queue that is only ever drained loses nothing: received plus resident is exactly what was accepted. */
  lemma {:induction false} BlockAndDrainLoseNothing(p: Policy, events: seq<Event>)
    requires p.capacity > 0 && p.overflow.Block? && NeverDiscards(events)
    ensures Run(p, events).received + Run(p, events).queue.frames == FramesOf(Run(p, events).accepted)
  {
    var w := Run(p, events);
    QueueIsFifo(p, events);
    BlockDeliversAll(p, events);
    SelectedAll(w.accepted, w.fates);
    forall i: nat | i < |w.queue.frames| ensures FramesOf(w.accepted)[|w.fates| + i] == w.queue.frames[i] {
      assert ResidentAt(w, i);
    }
  }

  /** Closing is final: nothing is accepted afterwards, whatever follows. */
  lemma {:induction false} NothingAcceptedAfterClose(p: Policy, events: seq<Event>, more: seq<Event>)
    requires Run(p, events).queue.closed
    ensures Run(p, events + more).queue.closed && Run(p, events + more).accepted == Run(p, events).accepted
    decreases |more|
  {
    if more == [] {
      assert events + more == events;
    } else {
      var rest := more[..|more| - 1];
      NothingAcceptedAfterClose(p, events, rest);
      assert (events + more)[..|events + more| - 1] == events + rest;
    }
  }

  /** A discarding close leaves nothing behind to be received, for good. */
  lemma {:induction false} NothingReceivedAfterDiscard(p: Policy, events: seq<Event>, more: seq<Event>)
    requires Run(p, events).queue.closed && Run(p, events).queue.frames == []
    ensures Run(p, events + more).received == Run(p, events).received && Run(p, events + more).queue.frames == []
    decreases |more|
  {
    if more == [] {
      assert events + more == events;
    } else {
      var rest := more[..|more| - 1];
      NothingReceivedAfterDiscard(p, events, rest);
      NothingAcceptedAfterClose(p, events, rest);
      assert (events + more)[..|events + more| - 1] == events + rest;
    }
  }

  // ---------------------------------------------------------------- what is answered

  ghost predicate WasClosed(events: seq<Event>) {
    exists i :: 0 <= i < |events| && events[i].Close?
  }

  lemma ClosesNext(p: Policy, w: World, e: Event)
    ensures Step(p, w, e).queue.closed <==> w.queue.closed || e.Close?
  {
  }

  lemma WasClosedNext(events: seq<Event>, e: Event)
    ensures WasClosed(events + [e]) <==> WasClosed(events) || e.Close?
  {
    var all := events + [e];
    if WasClosed(events) {
      var i :| 0 <= i < |events| && events[i].Close?;
      assert all[i].Close?;
    }
    if e.Close? { assert all[|events|].Close?; }
  }

  lemma {:induction false} ClosedIsWasClosed(p: Policy, events: seq<Event>)
    ensures Run(p, events).queue.closed <==> WasClosed(events)
  {
    if events != [] {
      var n := |events| - 1;
      ClosedIsWasClosed(p, events[..n]);
      ClosesNext(p, Run(p, events[..n]), events[n]);
      WasClosedNext(events[..n], events[n]);
      assert events == events[..n] + [events[n]];
    }
  }

  function FullAnswer(overflow: Overflow): PushOutcome {
    match overflow
    case Block => Waits
    case DropOldest => EnqueuedAfterDroppingOldest
    case DropNewest => DroppedNewest
    case AbortRun => OverflowAbort
  }

  /**
   What a push is answered, told by the history: after any close it is refused; otherwise it is
   taken in if fewer frames than the capacity are accepted and not gone; and else the overflow
   policy decides.
   */
  lemma PushAnswerIs(p: Policy, events: seq<Event>, f: Frame, at: nat)
    requires p.capacity > 0
    ensures var w := Run(p, events);
            AfterPush(p, w.queue, f, at).outcome ==
            if WasClosed(events) then Closed
            else if |w.accepted| - |w.fates| < p.capacity then Enqueued
            else FullAnswer(p.overflow)
  {
    ClosedIsWasClosed(p, events);
    QueueIsFifo(p, events);
  }

  /**
   What a pop is answered: the oldest accepted frame that is not gone; if there is none, the end
   after a close, and nothing before.
   */
  lemma PopAnswerIs(p: Policy, events: seq<Event>)
    requires p.capacity > 0
    ensures var w := Run(p, events); var o := AfterPop(w.queue).outcome;
            if |w.fates| < |w.accepted| then o == Got(w.accepted[|w.fates|].frame)
            else o == if WasClosed(events) then EdgeQueueModel.Finished else Nothing
  {
    ClosedIsWasClosed(p, events);
    QueueIsFifo(p, events);
    var w := Run(p, events);
    if w.queue.frames != [] { assert ResidentAt(w, 0); }
  }

  // ---------------------------------------------------------------- the high watermark

  /** The most frames the queue has ever held. */
  function Peak(p: Policy, events: seq<Event>): nat {
    if events == [] then 0
    else
      var before, now := Peak(p, events[..|events| - 1]), |Run(p, events).queue.frames|;
      if now > before then now else before
  }

  lemma WatermarkNext(p: Policy, w: World, e: Event)
    requires |w.queue.frames| <= w.queue.highWatermark && |w.queue.frames| <= p.capacity && p.capacity > 0
    ensures var q, r := w.queue, Step(p, w, e).queue;
            r.highWatermark == if |r.frames| > q.highWatermark then |r.frames| else q.highWatermark
  {
  }

  lemma {:induction false} WatermarkIsPeak(p: Policy, events: seq<Event>)
    requires p.capacity > 0
    ensures Run(p, events).queue.highWatermark == Peak(p, events)
  {
    if events != [] {
      var before := events[..|events| - 1];
      WatermarkIsPeak(p, before);
      QueueIsFifo(p, before);
      WatermarkNext(p, Run(p, before), events[|events| - 1]);
    }
  }

  // ---------------------------------------------------------------- how often it was full

  /** The pushes that found the open queue full. */
  function FullPushes(p: Policy, events: seq<Event>): nat {
    if events == [] then 0
    else
      var before := events[..|events| - 1];
      var w := Run(p, before);
      FullPushes(p, before)
      + (if events[|events| - 1].Push? && !w.queue.closed && |w.accepted| - |w.fates| == p.capacity then 1 else 0)
  }

  lemma FullNext(p: Policy, w: World, e: Event)
    requires |w.accepted| - |w.fates| == |w.queue.frames|
    ensures Step(p, w, e).queue.fullTotal ==
            if e.Push? && !w.queue.closed && |w.accepted| - |w.fates| == p.capacity
            then SatAdd(w.queue.fullTotal, 1) else w.queue.fullTotal
  {
  }

  lemma {:induction false} FullTotalIsExact(p: Policy, events: seq<Event>)
    requires p.capacity > 0
    ensures Run(p, events).queue.fullTotal == Capped(FullPushes(p, events))
  {
    if events != [] {
      var before := events[..|events| - 1];
      FullTotalIsExact(p, before);
      QueueIsFifo(p, before);
      FullNext(p, Run(p, before), events[|events| - 1]);
      CappedAdd(FullPushes(p, before), 1);
    }
  }
}
