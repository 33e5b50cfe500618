/**
 A measure of all the work the concurrent runtime still has in hand. Every internal step
 lowers it, so between two expiries of timers only boundedly many steps are possible.
 */
module RuntimeMeasure {
  import opened Optional
  import opened QueuePolicies
  import opened RuntimeModel

  // ---------------------------------------------------------------- weights

  function Beyond(size: nat, i: nat): nat {
    if i < size then size - i else 0
  }

  /** One full scan of a consumer, from observing the generation to leaving. */
  function ObserveWork(size: nat): nat {
    5 * size + 8
  }

  /** What one more notification can cost its target. */
  function BumpWork(size: nat): nat {
    ObserveWork(size) + 1
  }

  /** What one callback can cost when each of its sends costs `send`. */
  function CallWork(size: nat, send: nat): nat {
    ObserveWork(size) + 6 + 3 * size * send
  }

  /**
   What one item in a queue can cost when `k` ranks are left from its consumer on, with at
   most `budget` outputs per edge and callback.
   */
  function ItemWork(size: nat, budget: nat, k: nat): nat
    decreases k, 1
  {
    if k == 0 then 0 else CallWork(size, SendWork(size, budget, k)) + 2
  }

  /** What one frame or signal on its way into such a queue can cost. */
  function FrameWork(size: nat, budget: nat, k: nat): nat
    decreases k, 2
  {
    ItemWork(size, budget, k) + BumpWork(size) + 3
  }

  /** What one send of a node with `k` ranks left can cost. */
  function SendWork(size: nat, budget: nat, k: nat): nat
    requires k > 0
    decreases k, 0
  {
    budget * FrameWork(size, budget, k - 1) + 5
  }

  function LeavingWork(size: nat, k: nat): nat {
    2 + Beyond(size, k)
  }

  function ScanWork(size: nat, pc: WorkerPc): nat {
    match pc
    case Observe => ObserveWork(size)
    case ScanSignals(_, off) => 4 * size + 7 + Beyond(size, off)
    case TickCheck(_) => 4 * size + 6
    case ScanFrames(_, off) => 3 * size + 5 + Beyond(size, off)
    case ClosedCheck(_, k, framesDone) => size + 3 + 2 * Beyond(size, k) + (if framesDone || k >= size then 0 else 1)
    case _ => 0
  }

  function PcWork(size: nat, send: nat, call: nat, pc: WorkerPc): nat {
    match pc
    case Preparing => call + 6
    case Failing(inPrepare) => if inPrepare then call + 5 else size + 4
    case Closing(inPrepare) => if inPrepare then call + 4 else size + 3
    case Arriving => call + 3
    case Gated => call + 2
    case Starting => call + 1
    case Calling => call
    case SignalSend(_, i) => ObserveWork(size) + 5 + (2 * size + Beyond(size, i)) * send
    case AckWait(_) => ObserveWork(size) + 4 + 2 * size * send
    case ReasonCheck(_) => ObserveWork(size) + 3 + 2 * size * send
    case TrySend(_, i, _) => ObserveWork(size) + 2 + (size + Beyond(size, i)) * send
    case PendingSend(_, i, _) => ObserveWork(size) + 1 + Beyond(size, i) * send
    case Ticking => size + 3
    case Leaving(k) => LeavingWork(size, k)
    case Exited => 0
    case _ => ScanWork(size, pc)
  }

  /** The generation a scanning or parked worker has observed, if it is in the middle of a scan. */
  function Seen(pc: WorkerPc): Option<nat> {
    match pc
    case ScanSignals(seen, _) => Some(seen)
    case TickCheck(seen) => Some(seen)
    case ScanFrames(seen, _) => Some(seen)
    case ClosedCheck(seen, _, _) => Some(seen)
    case Parked(seen, _) => Some(seen)
    case _ => None
  }

  /** `send` is what one send of the worker can cost, `call` what one callback can. */
  function WorkerWork(size: nat, send: nat, call: nat, w: Worker): nat {
    PcWork(size, send, call, w.pc) + (if Seen(w.pc).Some? && Seen(w.pc).value != w.wakeups then BumpWork(size) else 0)
  }

  function DispatcherWork(bump: nat, frame: nat, d: DispatcherPc): nat {
    match d
    case Receiving => 2 * bump + 9
    case Applying(batch) => 2 * bump + 10 + |batch| * frame
    case Pushing(_, batch) => 2 * bump + 9 + |batch| * frame + frame
    case Sleeping(_, batch) => 2 * bump + 8 + |batch| * frame + frame
    case NotifyFrame(batch) => 3 * bump + 11 + |batch| * frame
    case Signalling(all, done) => 2 * bump + 11 + Beyond(|all|, done) * frame
    case NotifySignal(all, done) => 3 * bump + 12 + Beyond(|all|, done) * frame
    case DFailing(_) => 2 * bump + 8
    case DClosing(_) => 2 * bump + 7
    case Acking => 2 * bump + 6
    case ClosingQueue => 2 * bump + 4
    case NotifyingQueue => 2 * bump + 3
    case ClosingSignals => bump + 2
    case NotifyingSignals => bump + 1
    case DExited => 0
  }

  function ChannelWork(frame: nat, chan: seq<Message>): nat {
    if chan == [] then 0
    else match chan[0]
      case FrameBatch(frames) => |frames| * frame + 2
      case SignalBatch(signals) => |signals| * frame + 3
  }

  function EdgeWork(bump: nat, frame: nat, item: nat, es: Edge): nat {
    DispatcherWork(bump, frame, es.disp) + ChannelWork(frame, es.chan)
    + |es.queue| * item + |es.signals| * item + (if es.ack.Buffered? then 1 else 0)
  }

  function CloserWork(size: nat, c: Closer): nat {
    var each := BumpWork(size) + 3;
    match c
    case Idle => 4 + 2 * size * each
    case Cancelling => 3 + 2 * size * each
    case CloseQueue(k) => 2 + size * each + Beyond(size, k) * each
    case WakeQueue(k) => 1 + size * each + Beyond(size, k) * each
    case CloseSignals(k) => 1 + Beyond(size, k) * each
    case WakeSignals(k) => Beyond(size, k) * each
    case Done => 0
  }

  // ---------------------------------------------------------------- arithmetic

  lemma OneLess(n: nat, x: nat)
    requires n > 0
    ensures n * x == (n - 1) * x + x
  {
  }

  lemma More(a: nat, b: nat, x: nat)
    requires a <= b
    ensures a * x <= b * x && x * a <= x * b
  {
    assert b * x == a * x + (b - a) * x;
    assert (b - a) * x >= 0;
  }

  lemma {:induction false} WorkGrows(size: nat, budget: nat, j: nat, k: nat)
    requires j <= k
    ensures ItemWork(size, budget, j) <= ItemWork(size, budget, k)
    ensures FrameWork(size, budget, j) <= FrameWork(size, budget, k)
    decreases k
  {
    if j > 0 {
      WorkGrows(size, budget, j - 1, k - 1);
      More(FrameWork(size, budget, j - 1), FrameWork(size, budget, k - 1), budget);
      More(SendWork(size, budget, j), SendWork(size, budget, k), 3 * size);
    }
  }

  // ---------------------------------------------------------------- dispatcher steps, locally

  lemma ReceivingLowers(a: Arc, es: Edge, alive: bool, ctl: Control, c: PolicyChoice, bump: nat, frame: nat, item: nat)
    requires FrameEffect(a, es, alive, ctl, c).Some? && es.disp.Receiving? && |es.chan| <= 1
    ensures var f := FrameEffect(a, es, alive, ctl, c).value;
            f.ctl == ctl && EdgeWork(bump, frame, item, f.edge) + f.bumps * bump < EdgeWork(bump, frame, item, es)
  {
  }

  lemma ApplyingLowers(a: Arc, es: Edge, alive: bool, ctl: Control, c: PolicyChoice, bump: nat, frame: nat, item: nat)
    requires frame > 0 && FrameEffect(a, es, alive, ctl, c).Some? && (es.disp.Applying? || es.disp.NotifyFrame?)
    ensures var f := FrameEffect(a, es, alive, ctl, c).value;
            f.ctl == ctl && EdgeWork(bump, frame, item, f.edge) + f.bumps * bump < EdgeWork(bump, frame, item, es)
  {
    if es.disp.Applying? && es.disp.batch != [] { OneLess(|es.disp.batch|, frame); }
  }

  lemma FramesLower(a: Arc, es: Edge, alive: bool, ctl: Control, c: PolicyChoice, bump: nat, frame: nat, item: nat)
    requires frame == item + bump + 3 && FrameEffect(a, es, alive, ctl, c).Some? && !es.disp.Pushing? && |es.chan| <= 1
    ensures var f := FrameEffect(a, es, alive, ctl, c).value;
            f.ctl == ctl && EdgeWork(bump, frame, item, f.edge) + f.bumps * bump < EdgeWork(bump, frame, item, es)
  {
    if es.disp.Receiving? {
      ReceivingLowers(a, es, alive, ctl, c, bump, frame, item);
    } else {
      ApplyingLowers(a, es, alive, ctl, c, bump, frame, item);
    }
  }

  lemma PushLowers(a: Arc, es: Edge, frame': Frame, rest: seq<Frame>, ctl: Control, bump: nat, frame: nat, item: nat)
    requires frame == item + bump + 3 && es.disp == Pushing(frame', rest) && |es.queue| <= a.capacity && a.capacity > 0
    ensures var f := PushStep(a, es, frame', rest, ctl).value;
            f.ctl == ctl && EdgeWork(bump, frame, item, f.edge) + f.bumps * bump < EdgeWork(bump, frame, item, es)
  {
    OneLess(|es.queue| + 1, item);
  }

  lemma SignalsLower(capacity: nat, es: Edge, ctl: Control, c: PolicyChoice, bump: nat, frame: nat, item: nat)
    requires frame == item + bump + 3 && SignalEffect(capacity, es, ctl, c).Some?
    ensures var f := SignalEffect(capacity, es, ctl, c).value;
            f.ctl == ctl && EdgeWork(bump, frame, item, f.edge) + f.bumps * bump < EdgeWork(bump, frame, item, es)
  {
    OneLess(|es.signals| + 1, item);
    if es.disp.done < |es.disp.all| { OneLess(|es.disp.all| - es.disp.done, frame); }
  }

  lemma BreakLowers(es: Edge, bump: nat, frame: nat, item: nat)
    requires es.disp.Receiving? || es.disp.DFailing? || es.disp.DClosing?
    ensures EdgeWork(bump, frame, item, Break(es)) < EdgeWork(bump, frame, item, es)
  {
  }

  lemma ExitLowers(mode: DrainMode, es: Edge, ctl: Control, bump: nat, frame: nat, item: nat)
    requires ExitEffect(mode, es, ctl).Some?
    ensures var f := ExitEffect(mode, es, ctl).value;
            && (f.ctl == ctl || (!ctl.aborted && f.ctl == Install(ctl, mode)))
            && EdgeWork(bump, frame, item, f.edge) + f.bumps * bump < EdgeWork(bump, frame, item, es)
  {
    if es.disp.DFailing? || es.disp.DClosing? { BreakLowers(es, bump, frame, item); }
  }

  // ---------------------------------------------------------------- worker steps, locally

  predicate BoundedOut(budget: nat, out: Output) {
    |out.signals| <= budget && forall e :: 0 <= e < |out.batches| ==> |out.batches[e]| <= budget
  }

  predicate BoundedPc(budget: nat, pc: WorkerPc) {
    match pc
    case SignalSend(out, _) => BoundedOut(budget, out)
    case AckWait(out) => BoundedOut(budget, out)
    case ReasonCheck(out) => BoundedOut(budget, out)
    case TrySend(out, _, _) => BoundedOut(budget, out)
    case PendingSend(out, _, _) => BoundedOut(budget, out)
    case _ => true
  }

  /** A step of a thread of the runtime that is no expiry of a timer, with a callback that keeps its emission budget. */
  predicate Frugal(budget: nat, c: Choice) {
    !c.TimerElapsed? && (c.Returns? ==> BoundedOut(budget, c.out))
  }

  lemma CallSends(size: nat, send: nat)
    ensures 3 * size * send == (2 * size + size) * send == 2 * size * send + size * send
    ensures (size + size) * send == 2 * size * send
  {
  }

  lemma CallLowers(net: Net, s: State, n: nat, c: Choice, budget: nat, send: nat, call: nat)
    requires WellFormed(net) && Shaped(net, s) && n < net.nodes
    requires LifecycleStep(net, s, n, c).Some? && Frugal(budget, c)
    requires s.workers[n].pc.Calling? && call == CallWork(|net.arcs|, send)
    ensures var f := LifecycleStep(net, s, n, c).value;
            && WorkerWork(|net.arcs|, send, call, f.worker) < WorkerWork(|net.arcs|, send, call, s.workers[n])
            && BoundedPc(budget, f.worker.pc)
  {
    CallSends(|net.arcs|, send);
  }

  lemma StartingLowers(net: Net, s: State, n: nat, c: Choice, budget: nat, send: nat, call: nat)
    requires WellFormed(net) && Shaped(net, s) && n < net.nodes && LifecycleStep(net, s, n, c).Some? && !c.TimerElapsed?
    requires (s.workers[n].pc.Preparing? || s.workers[n].pc.Arriving? || s.workers[n].pc.Gated?
              || s.workers[n].pc.Starting?)
    requires call >= ObserveWork(|net.arcs|) + 6
    ensures var f := LifecycleStep(net, s, n, c).value;
            && WorkerWork(|net.arcs|, send, call, f.worker) < WorkerWork(|net.arcs|, send, call, s.workers[n])
            && BoundedPc(budget, f.worker.pc)
  {
  }

  lemma EndingLowers(net: Net, s: State, n: nat, c: Choice, budget: nat, send: nat, call: nat)
    requires WellFormed(net) && Shaped(net, s) && n < net.nodes && LifecycleStep(net, s, n, c).Some? && !c.TimerElapsed?
    requires (s.workers[n].pc.Failing? || s.workers[n].pc.Closing? || s.workers[n].pc.Ticking?
              || s.workers[n].pc.Leaving?)
    requires call >= ObserveWork(|net.arcs|) + 6
    ensures var f := LifecycleStep(net, s, n, c).value;
            && WorkerWork(|net.arcs|, send, call, f.worker) < WorkerWork(|net.arcs|, send, call, s.workers[n])
            && BoundedPc(budget, f.worker.pc)
  {
  }

  lemma LifecycleLowers(net: Net, s: State, n: nat, c: Choice, budget: nat, send: nat, call: nat)
    requires WellFormed(net) && Shaped(net, s) && n < net.nodes && LifecycleStep(net, s, n, c).Some? && !c.TimerElapsed?
    requires !s.workers[n].pc.Calling? && call >= ObserveWork(|net.arcs|) + 6
    ensures var f := LifecycleStep(net, s, n, c).value;
            && WorkerWork(|net.arcs|, send, call, f.worker) < WorkerWork(|net.arcs|, send, call, s.workers[n])
            && BoundedPc(budget, f.worker.pc)
  {
    var pc := s.workers[n].pc;
    if pc.Preparing? || pc.Arriving? || pc.Gated? || pc.Starting? {
      StartingLowers(net, s, n, c, budget, send, call);
    } else {
      EndingLowers(net, s, n, c, budget, send, call);
    }
  }

  /** What a step does to the work at the edge it changes. */
  function EdgeChange(s: State, f: Effect, bump: nat, frame: nat, item: nat): int
    requires f.changed.Some? ==> f.changed.value < |s.edges|
  {
    if f.changed.None? then 0
    else EdgeWork(bump, frame, item, f.edge) - EdgeWork(bump, frame, item, s.edges[f.changed.value])
  }

  lemma PopLowers(es: Edge, after: Edge, bump: nat, frame: nat, item: nat)
    requires es.queue != [] && after == es.(queue := es.queue[1..], left := after.left, disp := Wake(es.disp))
    ensures EdgeWork(bump, frame, item, after) + item <= EdgeWork(bump, frame, item, es) + 1
  {
    OneLess(|es.queue|, item);
  }

  lemma PopSignalLowers(es: Edge, bump: nat, frame: nat, item: nat)
    requires es.signals != []
    ensures EdgeWork(bump, frame, item, es.(signals := es.signals[1..])) + item == EdgeWork(bump, frame, item, es)
  {
    OneLess(|es.signals|, item);
  }

  lemma LookingLowers(net: Net, s: State, n: nat, c: Choice, send: nat, call: nat)
    requires WellFormed(net) && Shaped(net, s) && n < net.nodes && ScanStep(net, s, n, c).Some? && !c.TimerElapsed?
    requires s.workers[n].pc.ScanSignals? || s.workers[n].pc.TickCheck? || s.workers[n].pc.ScanFrames?
    requires ScanStep(net, s, n, c).value.changed.None?
    ensures WorkerWork(|net.arcs|, send, call, ScanStep(net, s, n, c).value.worker)
            < WorkerWork(|net.arcs|, send, call, s.workers[n])
  {
  }

  /** Where a check for closed inputs goes next. */
  predicate ChecksOn(size: nat, pc: WorkerPc, next: WorkerPc) {
    && pc.ClosedCheck?
    && (|| (next.Parked? && next.seen == pc.seen) || (next == Leaving(0) && pc.next >= size)
        || (pc.next < size && next == ClosedCheck(pc.seen, pc.next + 1, false))
        || (pc.next < size && !pc.framesDone && next == ClosedCheck(pc.seen, pc.next, true)))
  }

  lemma ChecksOnLowers(size: nat, send: nat, call: nat, w: Worker, next: WorkerPc)
    requires ChecksOn(size, w.pc, next)
    ensures WorkerWork(size, send, call, w.(pc := next)) < WorkerWork(size, send, call, w)
  {
  }

  lemma ClosedCheckMoves(net: Net, s: State, n: nat, c: Choice)
    requires WellFormed(net) && Shaped(net, s) && n < net.nodes
    requires ScanStep(net, s, n, c).Some? && s.workers[n].pc.ClosedCheck?
    ensures var f := ScanStep(net, s, n, c).value;
            f.worker == s.workers[n].(pc := f.worker.pc) && ChecksOn(|net.arcs|, s.workers[n].pc, f.worker.pc)
  {
  }

  lemma ClosedCheckLowers(net: Net, s: State, n: nat, c: Choice, send: nat, call: nat)
    requires WellFormed(net) && Shaped(net, s) && n < net.nodes
    requires ScanStep(net, s, n, c).Some? && s.workers[n].pc.ClosedCheck?
    ensures WorkerWork(|net.arcs|, send, call, ScanStep(net, s, n, c).value.worker)
            < WorkerWork(|net.arcs|, send, call, s.workers[n])
  {
    ClosedCheckMoves(net, s, n, c);
    ChecksOnLowers(|net.arcs|, send, call, s.workers[n], ScanStep(net, s, n, c).value.worker.pc);
  }

  lemma ObservingLowers(net: Net, s: State, n: nat, c: Choice, send: nat, call: nat)
    requires WellFormed(net) && Shaped(net, s) && n < net.nodes && ScanStep(net, s, n, c).Some? && !c.TimerElapsed?
    requires (s.workers[n].pc.Observe? || s.workers[n].pc.Parked?) && ScanStep(net, s, n, c).value.changed.None?
    ensures WorkerWork(|net.arcs|, send, call, ScanStep(net, s, n, c).value.worker)
            < WorkerWork(|net.arcs|, send, call, s.workers[n])
  {
  }

  lemma ScanMovesLower(net: Net, s: State, n: nat, c: Choice, send: nat, call: nat)
    requires WellFormed(net) && Shaped(net, s) && n < net.nodes && ScanStep(net, s, n, c).Some? && !c.TimerElapsed?
    requires ScanStep(net, s, n, c).value.changed.None?
    ensures WorkerWork(|net.arcs|, send, call, ScanStep(net, s, n, c).value.worker)
            < WorkerWork(|net.arcs|, send, call, s.workers[n])
  {
    var pc := s.workers[n].pc;
    if pc.ClosedCheck? { ClosedCheckLowers(net, s, n, c, send, call); }
    else if pc.Observe? || pc.Parked? { ObservingLowers(net, s, n, c, send, call); }
    else { LookingLowers(net, s, n, c, send, call); }
  }

  /** A scan that changes an edge has popped an item from one into its own node and calls back with it. */
  lemma ScanPops(net: Net, s: State, n: nat, c: Choice)
    requires WellFormed(net) && Shaped(net, s) && n < net.nodes
    requires ScanStep(net, s, n, c).Some? && ScanStep(net, s, n, c).value.changed.Some?
    ensures var f := ScanStep(net, s, n, c).value; var e := f.changed.value;
            && e < |s.edges| && net.arcs[e].dst == n && f.worker.pc.Calling? && !s.workers[n].pc.Parked?
            && (s.workers[n].pc.ScanSignals? || s.workers[n].pc.ScanFrames?)
            && (|| (s.edges[e].signals != [] && f.edge == s.edges[e].(signals := s.edges[e].signals[1..]))
                || (s.edges[e].queue != []
                    && f.edge == s.edges[e].(queue := s.edges[e].queue[1..], left := f.edge.left,
                                             disp := Wake(s.edges[e].disp))))
  {
  }

  lemma ScanLowers(net: Net, s: State, n: nat, c: Choice, send: nat, call: nat, bump: nat, frame: nat, item: nat)
    requires WellFormed(net) && Shaped(net, s) && n < net.nodes && ScanStep(net, s, n, c).Some? && !c.TimerElapsed?
    requires item == call + 2
    ensures var f := ScanStep(net, s, n, c).value;
            && (f.changed.Some? ==> f.changed.value < |s.edges| && net.arcs[f.changed.value].dst == n)
            && WorkerWork(|net.arcs|, send, call, f.worker) + EdgeChange(s, f, bump, frame, item)
               < WorkerWork(|net.arcs|, send, call, s.workers[n])
  {
    var f := ScanStep(net, s, n, c).value;
    if f.changed.None? {
      ScanMovesLower(net, s, n, c, send, call);
    } else {
      ScanPops(net, s, n, c);
      var es := s.edges[f.changed.value];
      if es.signals != [] && f.edge == es.(signals := es.signals[1..]) {
        PopSignalLowers(es, bump, frame, item);
      } else {
        PopLowers(es, f.edge, bump, frame, item);
      }
    }
  }

  /** A message put into an empty channel costs less than the send that puts it there. */
  lemma SendFits(es: Edge, m: Message, ack: Ack, budget: nat, frame: nat, most: nat, bump: nat, item: nat)
    requires es.chan == [] && frame <= most && (ack == es.ack || ack.Outstanding?)
    requires if m.FrameBatch? then |m.frames| <= budget else |m.signals| <= budget
    ensures EdgeWork(bump, frame, item, es.(chan := [m], ack := ack)) + 2
            <= EdgeWork(bump, frame, item, es) + budget * most + 5
  {
    var n := if m.FrameBatch? then |m.frames| else |m.signals|;
    More(n, budget, frame);
    More(frame, most, budget);
  }

  // ---------------------------------------------------------------- routing steps, locally

  /** A send lowers the sender's work by `send` and raises the edge's by less. */
  lemma SendLowers(s: State, w: Worker, k: nat, m: Message, ack: Ack, sent: WorkerPc, budget: nat, send: nat,
                   frame: nat, most: nat, bump: nat, item: nat)
    requires k < |s.edges| && SendOn(s, w, k, m, ack, sent).Some? && (ack == s.edges[k].ack || ack.Outstanding?)
    requires send == budget * most + 5 && frame <= most
    requires if m.FrameBatch? then |m.frames| <= budget else |m.signals| <= budget
    ensures var f := SendOn(s, w, k, m, ack, sent).value;
            && f.worker == w.(pc := f.worker.pc) && (f.changed.Some? ==> f.changed.value == k)
            && (f.worker.pc == Failing(false) || f.worker.pc == sent)
            && (f.worker.pc == Failing(false) && f.changed.Some? ==> f.worker.pc == sent)
            && EdgeChange(s, f, bump, frame, item) + 2 <= send
            && (f.changed.None? ==> EdgeChange(s, f, bump, frame, item) == 0)
  {
    var es := s.edges[k];
    if ReceiverAlive(es.disp) { SendFits(es, m, ack, budget, frame, most, bump, item); }
  }

  lemma NextSend(size: nat, base: nat, i: nat, send: nat)
    requires i < size
    ensures (base + Beyond(size, i)) * send == (base + Beyond(size, i + 1)) * send + send
  {
    OneLess(base + Beyond(size, i), send);
  }

  lemma SignalSendWork(size: nat, send: nat, call: nat, out: Output, k: nat)
    ensures k < size ==>
              PcWork(size, send, call, SignalSend(out, k + 1)) + send == PcWork(size, send, call, SignalSend(out, k))
    ensures PcWork(size, send, call, AckWait(out)) < PcWork(size, send, call, SignalSend(out, k))
    ensures PcWork(size, send, call, Failing(false)) < PcWork(size, send, call, SignalSend(out, k))
  {
    if k < size { NextSend(size, 2 * size, k, send); }
    More(2 * size, 2 * size + Beyond(size, k), send);
  }

  lemma AckWork(size: nat, send: nat, call: nat, out: Output)
    ensures PcWork(size, send, call, ReasonCheck(out)) < PcWork(size, send, call, AckWait(out))
    ensures PcWork(size, send, call, TrySend(out, 0, {})) < PcWork(size, send, call, ReasonCheck(out))
    ensures PcWork(size, send, call, Failing(false)) < PcWork(size, send, call, ReasonCheck(out))
  {
    CallSends(size, send);
  }

  lemma TrySendWork(size: nat, send: nat, call: nat, out: Output, k: nat, pending: set<nat>, more: set<nat>)
    ensures k < size ==>
              PcWork(size, send, call, TrySend(out, k + 1, more)) + send
              == PcWork(size, send, call, TrySend(out, k, pending))
    ensures PcWork(size, send, call, PendingSend(out, 0, pending)) < PcWork(size, send, call, TrySend(out, k, pending))
    ensures PcWork(size, send, call, Failing(false)) < PcWork(size, send, call, TrySend(out, k, pending))
  {
    if k < size { NextSend(size, size, k, send); }
    More(size, size + Beyond(size, k), send);
  }

  lemma PendingSendWork(size: nat, send: nat, call: nat, out: Output, k: nat, pending: set<nat>)
    ensures k < size ==>
              PcWork(size, send, call, PendingSend(out, k + 1, pending)) + send
              == PcWork(size, send, call, PendingSend(out, k, pending))
    ensures ObserveWork(size) < PcWork(size, send, call, PendingSend(out, k, pending))
  {
    if k < size { NextSend(size, 0, k, send); }
  }

  // ---------------------------------------------------------------- notifications and the sweep, locally

  lemma BumpCosts(size: nat, send: nat, call: nat, w: Worker, times: nat)
    ensures WorkerWork(size, send, call, Bump(w, times))
            <= WorkerWork(size, send, call, w) + (if times == 0 then 0 else BumpWork(size))
  {
  }

  predicate Waking(size: nat, c: Closer) {
    (c.WakeQueue? || c.WakeSignals?) && c.k < size
  }

  lemma SweepLowers(size: nat, ctl: Control)
    requires !ctl.closer.Idle? && !ctl.closer.Done?
    requires ctl.closer.WakeQueue? || ctl.closer.WakeSignals? ==> ctl.closer.k < size
    ensures CloserWork(size, SweepNext(size, ctl).closer) + (if Waking(size, ctl.closer) then BumpWork(size) + 1 else 0)
            < CloserWork(size, ctl.closer)
  {
    var each := BumpWork(size) + 3;
    if ctl.closer.WakeQueue? || ctl.closer.WakeSignals? { NextSend(size, 0, ctl.closer.k, each); }
    CallSends(size, each);
  }

  lemma SweepEdgeCosts(ctl: Control, e: nat, es: Edge, bump: nat, frame: nat, item: nat)
    ensures EdgeWork(bump, frame, item, SweepEdge(ctl, e, es))
            <= EdgeWork(bump, frame, item, es) + (if ctl.closer == WakeQueue(e) then 1 else 0)
  {
  }

  lemma InstallLowers(size: nat, ctl: Control, mode: DrainMode)
    requires ctl.closer.Idle?
    ensures CloserWork(size, Install(ctl, mode).closer) < CloserWork(size, ctl.closer)
  {
  }
}
