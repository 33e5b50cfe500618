/**
 The inductive invariant of the concurrent runtime. Everything it says about an edge
 is local: it mentions that edge, its producer, its consumer and the control record.
 */
module RuntimeInvariant {
  import opened Division
  import opened QueuePolicies
  import opened RuntimeModel

  // ---------------------------------------------------------------- wake-ups

  predicate Notifying(d: DispatcherPc) {
    d.NotifyFrame? || d.NotifySignal? || d.NotifyingQueue? || d.NotifyingSignals?
  }

  /** Somebody has changed edge `e` and has not yet bumped the target's generation. */
  predicate NotifyPending(e: nat, es: Edge, ctl: Control) {
    Notifying(es.disp) || ctl.closer == WakeQueue(e) || ctl.closer == WakeSignals(e)
  }

  predicate Dirty(e: nat, es: Edge, w: Worker, seen: nat, ctl: Control) {
    w.wakeups != seen || NotifyPending(e, es, ctl)
  }

  /** Both queues of the edge are closed and drained. */
  predicate Shut(es: Edge) {
    es.queueClosed && es.queue == [] && es.signalsClosed && es.signals == []
  }

  /** Offset at which a scan starting at `cursor` reaches edge `e`. */
  function Distance(size: nat, cursor: nat, e: nat): int {
    if e >= cursor then e - cursor else e + size - cursor
  }

  /** The sweep has closed the frame queue of edge `e` and notified its target. */
  predicate SweptPast(c: Closer, e: nat) {
    match c
    case CloseQueue(k) => e < k
    case WakeQueue(k) => e < k
    case CloseSignals(_) => true
    case WakeSignals(_) => true
    case Done => true
    case _ => false
  }

  predicate WakeOk(size: nat, e: nat, es: Edge, w: Worker, ctl: Control) {
    match w.pc
    case ScanSignals(seen, off) =>
      seen <= w.wakeups && (Distance(size, w.cursor, e) < off && es.signals != [] ==> Dirty(e, es, w, seen, ctl))
    case TickCheck(seen) =>
      seen <= w.wakeups && (es.signals != [] ==> Dirty(e, es, w, seen, ctl))
    case ScanFrames(seen, off) =>
      && seen <= w.wakeups && (es.signals != [] ==> Dirty(e, es, w, seen, ctl))
      && (Distance(size, w.cursor, e) < off && es.queue != [] ==> Dirty(e, es, w, seen, ctl))
    case ClosedCheck(seen, k, framesDone) =>
      && seen <= w.wakeups && (es.signals != [] || es.queue != [] ==> Dirty(e, es, w, seen, ctl))
      && (e < k ==> Shut(es)) && (e == k && framesDone ==> es.queueClosed && es.queue == [])
    case Parked(seen, open) =>
      && seen <= w.wakeups && (es.signals != [] || es.queue != [] ==> Dirty(e, es, w, seen, ctl))
      && (e == open ==> Dirty(e, es, w, seen, ctl) || !es.queueClosed || !es.signalsClosed)
      && (open >= size && SweptPast(ctl.closer, e) ==> w.wakeups != seen)
    case Leaving(_) => ctl.aborted || Shut(es)
    case Exited => ctl.aborted || Shut(es)
    case _ => true
  }

  // ---------------------------------------------------------------- the signal barrier

  predicate EndsWith(history: seq<Signal>, tail: seq<Signal>) {
    |tail| <= |history| && history[|history| - |tail|..] == tail
  }

  /** The dispatcher holds a signal batch it has not acknowledged. */
  predicate SignalBusy(d: DispatcherPc) {
    d.Signalling? || d.NotifySignal? || (d.DFailing? && d.inSignals) || (d.DClosing? && d.inSignals) || d.Acking?
  }

  predicate Quiet(es: Edge) {
    !SignalBusy(es.disp) && (es.chan != [] ==> es.chan[0].FrameBatch?)
  }

  predicate Applied(es: Edge, signals: seq<Signal>, all: seq<Signal>, done: nat) {
    all == signals && done <= |all| && EndsWith(es.accepted, all[..done])
  }

  predicate InHand(es: Edge, signals: seq<Signal>) {
    match es.disp
    case Signalling(all, done) => Applied(es, signals, all, done)
    case NotifySignal(all, done) => Applied(es, signals, all, done)
    case d => SignalBusy(d)
  }

  predicate AckOk(es: Edge, signals: seq<Signal>, ctl: Control) {
    match es.ack
    case Outstanding =>
      || (es.chan == [SignalBatch(signals)] && !SignalBusy(es.disp) && ReceiverAlive(es.disp))
      || (es.chan == [] && InHand(es, signals))
    case Buffered => Quiet(es) && (ctl.aborted || EndsWith(es.accepted, signals))
    case Received => Quiet(es) && (ctl.aborted || EndsWith(es.accepted, signals))
    case Lost => Quiet(es) && ctl.aborted
    case NoAck => false
  }

  predicate SignalOk(e: nat, es: Edge, w: Worker, ctl: Control) {
    match w.pc
    case SignalSend(out, k) => if e < k then AckOk(es, out.signals, ctl) else Quiet(es)
    case AckWait(out) => AckOk(es, out.signals, ctl)
    case ReasonCheck(out) => Quiet(es) && (ctl.aborted || EndsWith(es.accepted, out.signals))
    case TrySend(out, _, _) => Quiet(es) && EndsWith(es.accepted, out.signals)
    case PendingSend(out, _, _) => Quiet(es) && EndsWith(es.accepted, out.signals)
    case Failing(inPrepare) => inPrepare ==> Quiet(es)
    case Closing(inPrepare) => inPrepare ==> Quiet(es)
    case Leaving(_) => true
    case Exited => true
    case _ => Quiet(es)
  }

  // ---------------------------------------------------------------- queues, closing and exit

  predicate ShapeOk(a: Arc, es: Edge, ctl: Control) {
    && |es.chan| <= 1 && |es.queue| <= a.capacity
    && (!ReceiverAlive(es.disp) ==> es.chan == [])
    && (!a.overflow.DropOldest? && !(ctl.aborted && ctl.mode.Discard?) ==> es.entered == es.left + es.queue)
  }

  predicate SleepOk(a: Arc, e: nat, es: Edge, ctl: Control) {
    es.disp.Sleeping? ==> (|es.queue| == a.capacity && !es.queueClosed) || ctl.closer == WakeQueue(e)
  }

  predicate ExitOk(e: nat, es: Edge, w: Worker, ctl: Control) {
    && (es.disp.DClosing? || es.disp.Acking? ==> ctl.aborted)
    && (!ReceiverAlive(es.disp) ==> ctl.aborted || !SenderAlive(w, e))
    && (!ReceiverAlive(es.disp) && !es.disp.ClosingQueue? ==> es.queueClosed)
    && (es.disp.NotifyingSignals? || es.disp.DExited? ==> es.signalsClosed)
  }

  predicate SweptQueue(c: Closer, e: nat) {
    match c
    case CloseQueue(k) => e < k
    case WakeQueue(k) => e <= k
    case CloseSignals(_) => true
    case WakeSignals(_) => true
    case Done => true
    case _ => false
  }

  predicate SweptSignals(c: Closer, e: nat) {
    match c
    case CloseSignals(k) => e < k
    case WakeSignals(k) => e <= k
    case Done => true
    case _ => false
  }

  predicate CloseOk(e: nat, es: Edge, ctl: Control) {
    && (SweptQueue(ctl.closer, e) ==> es.queueClosed)
    && (SweptSignals(ctl.closer, e) ==> es.signalsClosed)
  }

  predicate EdgeOk(net: Net, e: nat, es: Edge, sw: Worker, dw: Worker, ctl: Control)
    requires e < |net.arcs|
  {
    && WakeOk(|net.arcs|, e, es, dw, ctl)
    && SignalOk(e, es, sw, ctl)
    && ShapeOk(net.arcs[e], es, ctl)
    && SleepOk(net.arcs[e], e, es, ctl)
    && ExitOk(e, es, sw, ctl)
    && CloseOk(e, es, ctl)
  }

  // ---------------------------------------------------------------- workers, gate and control

  predicate NotArrived(w: Worker) {
    w.pc.Preparing? || w.pc.Arriving? || (w.pc.Failing? && w.pc.inPrepare) || (w.pc.Closing? && w.pc.inPrepare)
  }

  predicate PcFits(net: Net, n: nat, w: Worker)
    requires n < |net.source|
  {
    match w.pc
    case SignalSend(out, _) => OutputFits(net, n, out)
    case AckWait(out) => OutputFits(net, n, out)
    case ReasonCheck(out) => OutputFits(net, n, out)
    case TrySend(out, _, pending) => OutputFits(net, n, out) && OwnEdges(net, n, pending)
    case PendingSend(out, _, pending) => OutputFits(net, n, out) && OwnEdges(net, n, pending)
    case Ticking => net.source[n]
    case Observe => !net.source[n]
    case ScanSignals(_, _) => !net.source[n]
    case TickCheck(_) => !net.source[n]
    case ScanFrames(_, _) => !net.source[n]
    case ClosedCheck(_, _, _) => !net.source[n]
    case Parked(_, open) => !net.source[n] && if open < |net.arcs| then net.arcs[open].dst == n else w.tick
    case _ => true
  }

  predicate OwnEdges(net: Net, n: nat, pending: set<nat>) {
    forall k :: k in pending ==> k < |net.arcs| && net.arcs[k].src == n
  }

  predicate WorkerOk(net: Net, n: nat, w: Worker, ctl: Control)
    requires n < |net.source|
  {
    && (|net.arcs| > 0 ==> w.cursor < |net.arcs|)
    && (w.prepared || w.pc.Preparing? || (w.pc.Failing? && w.pc.inPrepare) || ctl.aborted)
    && (w.pc.Closing? ==> ctl.aborted)
    && PcFits(net, n, w)
  }

  predicate ControlOk(size: nat, ctl: Control) {
    && (ctl.aborted <==> !ctl.closer.Idle?)
    && (ctl.cancelled <==> !ctl.closer.Idle? && !ctl.closer.Cancelling?)
    && (ctl.closer.WakeQueue? || ctl.closer.WakeSignals? ==> ctl.closer.k < size)
  }

  function Waiting(workers: seq<Worker>): set<nat> {
    set n: nat | n < |workers| && NotArrived(workers[n])
  }

  predicate Inv(net: Net, s: State)
    requires WellFormed(net)
  {
    && Shaped(net, s)
    && ControlOk(|net.arcs|, s.ctl)
    && s.remaining == |Waiting(s.workers)|
    && (forall n :: 0 <= n < net.nodes ==> WorkerOk(net, n, s.workers[n], s.ctl))
    && (forall e :: 0 <= e < |net.arcs| ==> EdgeHolds(net, s, e))
  }

  predicate EdgeHolds(net: Net, s: State, e: nat)
    requires WellFormed(net) && Shaped(net, s) && e < |net.arcs|
  {
    EdgeOk(net, e, s.edges[e], s.workers[net.arcs[e].src], s.workers[net.arcs[e].dst], s.ctl)
  }

  // ---------------------------------------------------------------- arithmetic of the rotating scan

  lemma VisitAtDistance(size: nat, cursor: nat, off: nat, e: nat)
    requires cursor < size && off < size && e < size
    ensures Distance(size, cursor, e) == off <==> e == Visit(size, cursor, off)
    ensures 0 <= Distance(size, cursor, e) < size
  {
    if cursor + off < size {
      QuotientUnique(cursor + off, size, 0, cursor + off);
    } else {
      QuotientUnique(cursor + off, size, 1, cursor + off - size);
    }
    assert Visit(size, cursor, off) == Mod(cursor + off, size);
  }

  // ---------------------------------------------------------------- the gate count

  lemma WaitingAfter(workers: seq<Worker>, n: nat, w: Worker)
    requires n < |workers|
    ensures NotArrived(workers[n]) == NotArrived(w) ==> Waiting(workers[n := w]) == Waiting(workers)
    ensures NotArrived(workers[n]) && !NotArrived(w) ==>
              Waiting(workers[n := w]) == Waiting(workers) - {n} && |Waiting(workers[n := w])| == |Waiting(workers)| - 1
  {
    if NotArrived(workers[n]) && !NotArrived(w) {
      assert n in Waiting(workers);
      assert Waiting(workers[n := w]) == Waiting(workers) - {n};
    }
  }

  lemma {:induction false} AllWaiting(workers: seq<Worker>)
    requires forall n :: 0 <= n < |workers| ==> NotArrived(workers[n])
    ensures |Waiting(workers)| == |workers|
  {
    if |workers| > 0 {
      var last := |workers| - 1;
      var rest := workers[..last];
      AllWaiting(rest);
      forall n: nat ensures n in Waiting(workers) <==> n in Waiting(rest) + {last} {
        if n < last { assert workers[n] == rest[n]; }
      }
      assert Waiting(workers) == Waiting(rest) + {last};
    }
  }

  lemma InitialOk(net: Net)
    requires WellFormed(net)
    ensures Inv(net, Initial(net))
  {
    AllWaiting(Initial(net).workers);
  }
}
