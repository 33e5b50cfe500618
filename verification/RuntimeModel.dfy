/**
 The concurrent graph runtime as an interleaving of atomic steps: one worker per
 node, one dispatcher per enabled edge, and the close-everything sweep started by
 the first abort. Every lock-protected region, channel operation and atomic flag
 access of the runtime is one step; a node or edge-policy callback is one step
 with an arbitrary outcome. Nodes are numbered by their topological position.
 */
module RuntimeModel {
  import opened Optional
  import opened QueuePolicies

  type Frame = nat
  type Signal = nat

  datatype Arc = Arc(src: nat, dst: nat, capacity: nat, overflow: Overflow)

  datatype Net = Net(
    nodes: nat,
    arcs: seq<Arc>,
    source: seq<bool>,
    signalCapacity: nat,
    failureMode: DrainMode,
    shutdownMode: DrainMode)

  /** Edges point forward in the topological order and Source nodes have no inputs. */
  predicate WellFormed(net: Net) {
    && |net.source| == net.nodes
    && forall e :: 0 <= e < |net.arcs| ==> WellFormedArc(net, net.arcs[e])
  }

  predicate WellFormedArc(net: Net, a: Arc)
    requires |net.source| == net.nodes
  {
    a.src < a.dst < net.nodes && 0 < a.capacity && !net.source[a.dst]
  }

  // ---------------------------------------------------------------- state

  /** What one node callback produced: a batch per edge, signals, and a timer request. */
  datatype Output = Output(batches: seq<seq<Frame>>, signals: seq<Signal>, tick: bool)

  datatype WorkerPc =
    | Preparing
    | Arriving
    | Gated
    | Starting
    | Calling
    | SignalSend(out: Output, next: nat)
    | AckWait(out: Output)
    | ReasonCheck(out: Output)
    | TrySend(out: Output, next: nat, pending: set<nat>)
    | PendingSend(out: Output, next: nat, pending: set<nat>)
    | Ticking
    | Observe
    | ScanSignals(seen: nat, off: nat)
    | TickCheck(seen: nat)
    | ScanFrames(seen: nat, off: nat)
    | ClosedCheck(seen: nat, next: nat, framesDone: bool)
    | Parked(seen: nat, open: nat)
    | Failing(inPrepare: bool)
    | Closing(inPrepare: bool)
    | Leaving(next: nat)
    | Exited

  /** `wakeups` is the generation counter of the node's QueueWake. */
  datatype Worker = Worker(pc: WorkerPc, tick: bool, prepared: bool, cursor: nat, wakeups: nat)

  datatype Message = FrameBatch(frames: seq<Frame>) | SignalBatch(signals: seq<Signal>)

  datatype DispatcherPc =
    | Receiving
    | Applying(batch: seq<Frame>)
    | Pushing(frame: Frame, batch: seq<Frame>)
    | Sleeping(frame: Frame, batch: seq<Frame>)
    | NotifyFrame(batch: seq<Frame>)
    | Signalling(all: seq<Signal>, done: nat)
    | NotifySignal(all: seq<Signal>, done: nat)
    | DFailing(inSignals: bool)
    | DClosing(inSignals: bool)
    | Acking
    | ClosingQueue
    | NotifyingQueue
    | ClosingSignals
    | NotifyingSignals
    | DExited

  /** The producer's view of one edge's acknowledgement in the current signal barrier. */
  datatype Ack = NoAck | Outstanding | Buffered | Received | Lost

  /**
   One edge: its dispatcher, the capacity-one channel into it, the bounded frame
   queue and signal queue behind it. `entered`, `left` and `accepted` are history.
   */
  datatype Edge = Edge(
    disp: DispatcherPc,
    chan: seq<Message>,
    queue: seq<Frame>,
    queueClosed: bool,
    signals: seq<Signal>,
    signalsClosed: bool,
    ack: Ack,
    entered: seq<Frame>,
    left: seq<Frame>,
    accepted: seq<Signal>)

  const FRESH_EDGE := Edge(Receiving, [], [], false, [], false, NoAck, [], [], [])

  datatype Closer =
    | Idle
    | Cancelling
    | CloseQueue(k: nat)
    | WakeQueue(k: nat)
    | CloseSignals(k: nat)
    | WakeSignals(k: nat)
    | Done

  datatype Control = Control(aborted: bool, cancelled: bool, mode: DrainMode, closer: Closer)

  datatype State = State(workers: seq<Worker>, edges: seq<Edge>, ctl: Control, remaining: nat)

  function Initial(net: Net): (s: State) {
    State(
      seq(net.nodes, i => Worker(Preparing, false, false, 0, 0)),
      seq(|net.arcs|, i => FRESH_EDGE),
      Control(false, false, Drain, Idle),
      net.nodes)
  }

  predicate Shaped(net: Net, s: State) {
    |s.workers| == net.nodes && |s.edges| == |net.arcs|
  }

  // ---------------------------------------------------------------- worker steps

  /** How a callback, a timer or a channel receive turned out. */
  datatype Choice =
    | Proceed
    | CallFails
    | Returns(out: Output)
    | TakeAck(edge: nat)
    | TimerElapsed

  /** A step's effect: the worker itself, at most one edge, the control record and the gate. */
  datatype Effect = Effect(worker: Worker, changed: Option<nat>, edge: Edge, ctl: Control, remaining: nat)

  /** The receiving half of the channel is dropped as soon as the dispatcher leaves its loop. */
  predicate ReceiverAlive(d: DispatcherPc) {
    !d.ClosingQueue? && !d.NotifyingQueue? && !d.ClosingSignals? && !d.NotifyingSignals? && !d.DExited?
  }

  /** A leaving worker drops its senders one edge at a time. */
  predicate SenderAlive(w: Worker, e: nat) {
    match w.pc
    case Leaving(k) => k <= e
    case Exited => false
    case _ => true
  }

  predicate OutputFits(net: Net, n: nat, out: Output) {
    && |out.batches| == |net.arcs|
    && forall e :: 0 <= e < |net.arcs| && net.arcs[e].src != n ==> out.batches[e] == []
  }

  function AfterFailure(inPrepare: bool): WorkerPc {
    if inPrepare then Arriving else Leaving(0)
  }

  function Move(s: State, w: Worker, pc: WorkerPc): Option<Effect> {
    Some(Effect(w.(pc := pc), None, FRESH_EDGE, s.ctl, s.remaining))
  }

  function MoveEdge(s: State, w: Worker, pc: WorkerPc, e: nat, es: Edge): Option<Effect> {
    Some(Effect(w.(pc := pc), Some(e), es, s.ctl, s.remaining))
  }

  /** A pop signals `not_full` under the queue lock, so it wakes a sleeping producer. */
  function Wake(d: DispatcherPc): DispatcherPc {
    if d.Sleeping? then Pushing(d.frame, d.batch) else d
  }

  function Resume(net: Net, n: nat, w: Worker): WorkerPc
    requires n < |net.source|
  {
    if net.source[n] then (if w.tick then Ticking else Leaving(0)) else Observe
  }

  predicate AllReceived(net: Net, s: State, n: nat)
    requires Shaped(net, s)
  {
    forall e :: 0 <= e < |net.arcs| && net.arcs[e].src == n ==> s.edges[e].ack == Received
  }

  predicate NoAckComing(net: Net, s: State, n: nat)
    requires Shaped(net, s)
  {
    forall e :: 0 <= e < |net.arcs| && net.arcs[e].src == n ==>
      !s.edges[e].ack.Outstanding? && !s.edges[e].ack.Buffered?
  }

  /** Sends on the channel of edge `k`: blocks while full, fails once the receiver is gone. */
  function SendOn(s: State, w: Worker, k: nat, m: Message, ack: Ack, sent: WorkerPc): Option<Effect>
    requires k < |s.edges|
  {
    var es := s.edges[k];
    if !ReceiverAlive(es.disp) then Move(s, w, Failing(false))
    else if es.chan == [] then MoveEdge(s, w, sent, k, es.(chan := [m], ack := ack))
    else None
  }

  /** The signal barrier: every outgoing dispatcher must acknowledge before any frame is sent. */
  function BarrierStep(net: Net, s: State, n: nat, c: Choice): Option<Effect>
    requires WellFormed(net) && Shaped(net, s) && n < net.nodes
  {
    var w := s.workers[n];
    var size := |net.arcs|;
    match w.pc
    case SignalSend(out, k) =>
      if k >= size then Move(s, w, AckWait(out))
      else if net.arcs[k].src != n then Move(s, w, SignalSend(out, k + 1))
      else SendOn(s, w, k, SignalBatch(out.signals), Outstanding, SignalSend(out, k + 1))
    case AckWait(out) =>
      if c.TakeAck? && c.edge < size && net.arcs[c.edge].src == n && s.edges[c.edge].ack.Buffered? then
        MoveEdge(s, w, w.pc, c.edge, s.edges[c.edge].(ack := Received))
      else if AllReceived(net, s, n) then Move(s, w, ReasonCheck(out))
      else if NoAckComing(net, s, n) then Move(s, w, Failing(false))
      else None
    case ReasonCheck(out) =>
      Move(s, w, if s.ctl.aborted then Failing(false) else TrySend(out, 0, {}))
    case _ => None
  }

  /** Frame batches: first offered to every channel without waiting, then sent to the full ones in order. */
  function FramesStep(net: Net, s: State, n: nat): Option<Effect>
    requires WellFormed(net) && Shaped(net, s) && n < net.nodes
  {
    var w := s.workers[n];
    var size := |net.arcs|;
    match w.pc
    case TrySend(out, k, pending) =>
      if k >= size || k >= |out.batches| then Move(s, w, PendingSend(out, 0, pending))
      else if net.arcs[k].src != n || out.batches[k] == [] then Move(s, w, TrySend(out, k + 1, pending))
      else if ReceiverAlive(s.edges[k].disp) && s.edges[k].chan != [] then
        Move(s, w, TrySend(out, k + 1, pending + {k}))
      else SendOn(s, w, k, FrameBatch(out.batches[k]), s.edges[k].ack, TrySend(out, k + 1, pending))
    case PendingSend(out, k, pending) =>
      if k >= size || k >= |out.batches| then Move(s, w, Resume(net, n, w))
      else if k !in pending then Move(s, w, PendingSend(out, k + 1, pending))
      else SendOn(s, w, k, FrameBatch(out.batches[k]), s.edges[k].ack, PendingSend(out, k + 1, pending))
    case _ => None
  }

  /** The edge visited at offset `off` of a scan that starts at the rotating cursor. */
  function Visit(size: nat, cursor: nat, off: nat): (i: nat)
    requires 0 < size
    ensures i < size
  {
    (cursor + off) % size
  }

  function ScanStep(net: Net, s: State, n: nat, c: Choice): Option<Effect>
    requires WellFormed(net) && Shaped(net, s) && n < net.nodes
  {
    var w := s.workers[n];
    var size := |net.arcs|;
    match w.pc
    case Observe => Move(s, w, ScanSignals(w.wakeups, 0))
    case ScanSignals(seen, off) =>
      if off >= size then Move(s, w, TickCheck(seen))
      else
        var i := Visit(size, w.cursor, off);
        var es := s.edges[i];
        if net.arcs[i].dst != n || es.signals == [] then Move(s, w, ScanSignals(seen, off + 1))
        else MoveEdge(s, w.(cursor := (i + 1) % size), Calling, i, es.(signals := es.signals[1..]))
    case TickCheck(seen) =>
      if w.tick && c.TimerElapsed? then Move(s, w.(tick := false), Calling)
      else Move(s, w, ScanFrames(seen, 0))
    case ScanFrames(seen, off) =>
      if off >= size then Move(s, w, ClosedCheck(seen, 0, false))
      else
        var i := Visit(size, w.cursor, off);
        var es := s.edges[i];
        if net.arcs[i].dst != n || es.queue == [] then Move(s, w, ScanFrames(seen, off + 1))
        else MoveEdge(s, w.(cursor := (i + 1) % size), Calling, i,
          es.(queue := es.queue[1..], left := es.left + [es.queue[0]], disp := Wake(es.disp)))
    case ClosedCheck(seen, k, framesDone) =>
      if k >= size then Move(s, w, if !w.tick || s.ctl.cancelled then Leaving(0) else Parked(seen, size))
      else if net.arcs[k].dst != n then Move(s, w, ClosedCheck(seen, k + 1, false))
      else if !framesDone then
        Move(s, w, if s.edges[k].queueClosed && s.edges[k].queue == [] then ClosedCheck(seen, k, true)
                   else Parked(seen, k))
      else
        Move(s, w, if s.edges[k].signalsClosed && s.edges[k].signals == [] then ClosedCheck(seen, k + 1, false)
                   else Parked(seen, k))
    case Parked(seen, open) =>
      if w.wakeups != seen || (w.tick && c.TimerElapsed?) then Move(s, w, Observe) else None
    case _ => None
  }

  function LifecycleStep(net: Net, s: State, n: nat, c: Choice): Option<Effect>
    requires WellFormed(net) && Shaped(net, s) && n < net.nodes
  {
    var w := s.workers[n];
    match w.pc
    case Preparing =>
      if c.CallFails? then Move(s, w, Failing(true)) else Move(s, w.(prepared := true), Arriving)
    case Arriving =>
      Some(Effect(w.(pc := Gated), None, FRESH_EDGE, s.ctl,
        if s.remaining == 0 then 0 else s.remaining - 1))
    case Gated => if s.remaining == 0 then Move(s, w, Starting) else None
    case Starting =>
      Move(s, w, if w.prepared && (!net.source[n] || !s.ctl.cancelled)
        then (if net.source[n] then Calling else Observe) else Leaving(0))
    case Calling =>
      if c.Returns? && OutputFits(net, n, c.out) then
        var w' := w.(tick := if net.source[n] then c.out.tick else w.tick || c.out.tick);
        Move(s, w', if c.out.signals == [] then TrySend(c.out, 0, {}) else SignalSend(c.out, 0))
      else Move(s, w, Failing(false))
    case Ticking =>
      if s.ctl.cancelled then Move(s, w, Leaving(0))
      else if c.TimerElapsed? then Move(s, w.(tick := false), Calling)
      else None
    case Failing(inPrepare) =>
      if s.ctl.aborted then Move(s, w, AfterFailure(inPrepare))
      else Some(Effect(w.(pc := Closing(inPrepare)), None, FRESH_EDGE,
        Install(s.ctl, net.failureMode), s.remaining))
    case Closing(inPrepare) =>
      if s.ctl.closer.Done? then Move(s, w, AfterFailure(inPrepare)) else None
    case Leaving(k) => Move(s, w, if k >= |net.arcs| then Exited else Leaving(k + 1))
    case _ => None
  }

  /** The first abort installs the reason and starts the close-everything sweep. */
  function Install(ctl: Control, mode: DrainMode): Control {
    ctl.(aborted := true, mode := mode, closer := Cancelling)
  }

  function WorkerEffect(net: Net, s: State, n: nat, c: Choice): Option<Effect>
    requires WellFormed(net) && Shaped(net, s) && n < net.nodes
  {
    var pc := s.workers[n].pc;
    if pc.SignalSend? || pc.AckWait? || pc.ReasonCheck? then BarrierStep(net, s, n, c)
    else if pc.TrySend? || pc.PendingSend? then FramesStep(net, s, n)
    else if pc.Observe? || pc.ScanSignals? || pc.TickCheck? || pc.ScanFrames? || pc.ClosedCheck? || pc.Parked? then
      ScanStep(net, s, n, c)
    else LifecycleStep(net, s, n, c)
  }

  // ---------------------------------------------------------------- dispatcher steps

  datatype PolicyChoice = Forward(frame: Frame) | PolicyDrop | PolicyFails

  /** A dispatcher step: its own edge, how often it bumps the target's wake-up, and the control record. */
  datatype EdgeEffect = EdgeEffect(edge: Edge, bumps: nat, ctl: Control)

  /** Leaving the receive loop drops the receiver together with anything still in the channel. */
  function Break(es: Edge): Edge {
    es.(disp := ClosingQueue, chan := [],
        ack := if es.chan != [] && es.chan[0].SignalBatch? then Lost else es.ack)
  }

  function Stay(es: Edge, d: DispatcherPc, ctl: Control): Option<EdgeEffect> {
    Some(EdgeEffect(es.(disp := d), 0, ctl))
  }

  function Notify(es: Edge, d: DispatcherPc, ctl: Control): Option<EdgeEffect> {
    Some(EdgeEffect(es.(disp := d), 1, ctl))
  }

  function PushStep(a: Arc, es: Edge, frame: Frame, rest: seq<Frame>, ctl: Control): Option<EdgeEffect> {
    if es.queueClosed then Stay(es, DFailing(false), ctl)
    else if |es.queue| < a.capacity then
      Stay(es.(queue := es.queue + [frame], entered := es.entered + [frame]), NotifyFrame(rest), ctl)
    else match a.overflow
      case Block => Stay(es, Sleeping(frame, rest), ctl)
      case DropOldest =>
        Stay(es.(queue := (es.queue + [frame])[1..], entered := es.entered + [frame]), NotifyFrame(rest), ctl)
      case DropNewest => Stay(es, Applying(rest), ctl)
      case AbortRun => Stay(es, DFailing(false), ctl)
  }

  /** Receiving a batch and pushing its frames through the edge policy into the frame queue. */
  function FrameEffect(a: Arc, es: Edge, senderAlive: bool, ctl: Control, c: PolicyChoice): Option<EdgeEffect> {
    match es.disp
    case Receiving =>
      if es.chan != [] then
        var m := es.chan[0];
        Stay(es.(chan := []), if m.FrameBatch? then Applying(m.frames) else Signalling(m.signals, 0), ctl)
      else if senderAlive then None
      else Some(EdgeEffect(Break(es), 0, ctl))
    case Applying(batch) =>
      if batch == [] then Stay(es, Receiving, ctl)
      else (match c
        case Forward(f) => Stay(es, Pushing(f, batch[1..]), ctl)
        case PolicyDrop => Stay(es, Applying(batch[1..]), ctl)
        case PolicyFails => Stay(es, DFailing(false), ctl))
    case Pushing(frame, rest) => PushStep(a, es, frame, rest, ctl)
    case NotifyFrame(rest) => Notify(es, Applying(rest), ctl)
    case _ => None
  }

  /** Applying one signal batch in order, then acknowledging it. */
  function SignalEffect(capacity: nat, es: Edge, ctl: Control, c: PolicyChoice): Option<EdgeEffect> {
    match es.disp
    case Signalling(all, k) =>
      if k >= |all| then Stay(es.(ack := Buffered), Receiving, ctl)
      else if c.PolicyFails? || es.signalsClosed || |es.signals| >= capacity then Stay(es, DFailing(true), ctl)
      else
        Stay(es.(signals := es.signals + [all[k]], accepted := es.accepted + [all[k]]), NotifySignal(all, k + 1), ctl)
    case NotifySignal(all, k) => Notify(es, Signalling(all, k), ctl)
    case _ => None
  }

  /** Failing the graph, acknowledging a failed signal batch, and closing both queues on the way out. */
  function ExitEffect(mode: DrainMode, es: Edge, ctl: Control): Option<EdgeEffect> {
    match es.disp
    case DFailing(inSignals) =>
      if ctl.aborted then Some(EdgeEffect(if inSignals then es.(disp := Acking) else Break(es), 0, ctl))
      else Stay(es, DClosing(inSignals), Install(ctl, mode))
    case DClosing(inSignals) =>
      if ctl.closer.Done? then Some(EdgeEffect(if inSignals then es.(disp := Acking) else Break(es), 0, ctl)) else None
    case Acking => Some(EdgeEffect(Break(es.(ack := Buffered)), 0, ctl))
    case ClosingQueue => Stay(es.(queueClosed := true), NotifyingQueue, ctl)
    case NotifyingQueue => Notify(es, ClosingSignals, ctl)
    case ClosingSignals => Stay(es.(signalsClosed := true), NotifyingSignals, ctl)
    case NotifyingSignals => Notify(es, DExited, ctl)
    case _ => None
  }

  function DispatcherEffect(net: Net, a: Arc, es: Edge, senderAlive: bool, ctl: Control,
                            c: PolicyChoice): Option<EdgeEffect> {
    if es.disp.Signalling? || es.disp.NotifySignal? then SignalEffect(net.signalCapacity, es, ctl, c)
    else if es.disp.Receiving? || es.disp.Applying? || es.disp.Pushing? || es.disp.NotifyFrame? then
      FrameEffect(a, es, senderAlive, ctl, c)
    else ExitEffect(net.failureMode, es, ctl)
  }

  // ---------------------------------------------------------------- the abort sweep

  /** What the sweep does to edge `e` in its current position, and the next position. */
  function SweepEdge(ctl: Control, e: nat, es: Edge): Edge {
    match ctl.closer
    case CloseQueue(k) =>
      if k != e then es else es.(queueClosed := true, queue := if ctl.mode.Discard? then [] else es.queue)
    case WakeQueue(k) => if k != e then es else es.(disp := Wake(es.disp))
    case CloseSignals(k) =>
      if k != e then es else es.(signalsClosed := true, signals := if ctl.mode.Discard? then [] else es.signals)
    case _ => es
  }

  function SweepNext(size: nat, ctl: Control): Control {
    match ctl.closer
    case Cancelling => ctl.(cancelled := true, closer := CloseQueue(0))
    case CloseQueue(k) => ctl.(closer := if k >= size then CloseSignals(0) else WakeQueue(k))
    case WakeQueue(k) => ctl.(closer := CloseQueue(k + 1))
    case CloseSignals(k) => ctl.(closer := if k >= size then Done else WakeSignals(k))
    case WakeSignals(k) => ctl.(closer := CloseSignals(k + 1))
    case _ => ctl
  }

  /** The sweep notifies the target of the edge it has just closed. */
  predicate SweepWakes(net: Net, ctl: Control, n: nat) {
    && (ctl.closer.WakeQueue? || ctl.closer.WakeSignals?)
    && ctl.closer.k < |net.arcs| && net.arcs[ctl.closer.k].dst == n
  }

  function Bump(w: Worker, times: nat): Worker {
    w.(wakeups := w.wakeups + times)
  }

  // ---------------------------------------------------------------- transitions

  datatype Action =
    | WorkerAct(n: nat, choice: Choice)
    | DispatcherAct(e: nat, policy: PolicyChoice)
    | SweepAct
    | StopAct

  function ApplyWorker(s: State, n: nat, f: Effect): State
    requires n < |s.workers|
  {
    State(s.workers[n := f.worker],
      if f.changed.Some? && f.changed.value < |s.edges| then s.edges[f.changed.value := f.edge] else s.edges,
      f.ctl, f.remaining)
  }

  function ApplyDispatcher(s: State, e: nat, dst: nat, f: EdgeEffect): State
    requires e < |s.edges| && dst < |s.workers|
  {
    State(s.workers[dst := Bump(s.workers[dst], f.bumps)], s.edges[e := f.edge], f.ctl, s.remaining)
  }

  function ApplySweep(net: Net, s: State): State {
    State(
      seq(|s.workers|, n requires 0 <= n < |s.workers| =>
        Bump(s.workers[n], if SweepWakes(net, s.ctl, n) then 1 else 0)),
      seq(|s.edges|, e requires 0 <= e < |s.edges| => SweepEdge(s.ctl, e, s.edges[e])),
      SweepNext(|net.arcs|, s.ctl), s.remaining)
  }

  function Step(net: Net, s: State, a: Action): Option<State>
    requires WellFormed(net) && Shaped(net, s)
  {
    match a
    case WorkerAct(n, c) =>
      if n >= net.nodes then None
      else
        var f := WorkerEffect(net, s, n, c);
        if f.None? then None else Some(ApplyWorker(s, n, f.value))
    case DispatcherAct(e, c) =>
      if e >= |net.arcs| then None
      else
        var arc := net.arcs[e];
        var f := DispatcherEffect(net, arc, s.edges[e], SenderAlive(s.workers[arc.src], e), s.ctl, c);
        if f.None? then None else Some(ApplyDispatcher(s, e, arc.dst, f.value))
    case SweepAct =>
      if s.ctl.closer.Idle? || s.ctl.closer.Done? then None else Some(ApplySweep(net, s))
    case StopAct =>
      if s.ctl.aborted then None else Some(s.(ctl := Install(s.ctl, net.shutdownMode)))
  }

  /** A run: a chain of states from the initial one, each produced by some step. */
  ghost predicate IsRun(net: Net, run: seq<State>)
    requires WellFormed(net)
  {
    && |run| > 0 && run[0] == Initial(net)
    && forall i: nat {:trigger Linked(net, run, i)} :: 0 < i < |run| ==> Linked(net, run, i)
  }

  ghost predicate Linked(net: Net, run: seq<State>, i: nat)
    requires WellFormed(net) && 0 < i < |run|
  {
    Follows(net, run[i - 1], run[i])
  }

  ghost predicate Follows(net: Net, s: State, t: State)
    requires WellFormed(net)
  {
    Shaped(net, s) && exists a :: Step(net, s, a) == Some(t)
  }
}
