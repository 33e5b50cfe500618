/**
 What becomes of every frame and signal a callback emits. The log of a run is read off its
 states and the actions that were taken: what callbacks returned, what appeared in a
 channel, how edge policies answered, what was pushed into a queue and what left it.
 */
module RuntimeFlow {
  import opened Optional
  import opened QueuePolicies
  import opened RuntimeModel
  import opened RuntimeInvariant
  import opened RuntimeSteps
  import opened RuntimeTheorems
  import RuntimeProgress

  // ---------------------------------------------------------------- runs with their actions

  ghost predicate Taken(net: Net, run: seq<State>, acts: seq<Action>, i: nat)
    requires WellFormed(net) && i < |acts| && |run| == |acts| + 1
  {
    Shaped(net, run[i]) && Step(net, run[i], acts[i]) == Some(run[i + 1])
  }

  /** A run together with the action that was taken in each of its states. */
  ghost predicate IsTrace(net: Net, run: seq<State>, acts: seq<Action>)
    requires WellFormed(net)
  {
    && |run| == |acts| + 1 && run[0] == Initial(net)
    && forall i: nat {:trigger Taken(net, run, acts, i)} :: i < |acts| ==> Taken(net, run, acts, i)
  }

  lemma TraceIsRun(net: Net, run: seq<State>, acts: seq<Action>)
    requires WellFormed(net) && IsTrace(net, run, acts)
    ensures IsRun(net, run)
  {
    forall i: nat | 0 < i < |run| ensures Linked(net, run, i) { assert Taken(net, run, acts, i - 1); }
  }

  /** Every run can be told with its actions. */
  lemma {:induction false} RunHasTrace(net: Net, run: seq<State>) returns (acts: seq<Action>)
    requires WellFormed(net) && IsRun(net, run)
    ensures IsTrace(net, run, acts)
  {
    if |run| == 1 {
      acts := [];
    } else {
      var last := |run| - 1;
      PrefixIsRun(net, run, last);
      acts := RunHasTrace(net, run[..last]);
      assert Linked(net, run, last);
      var a :| Step(net, run[last - 1], a) == Some(run[last]);
      TraceGrows(net, run, acts, a);
      acts := acts + [a];
    }
  }

  lemma PrefixIsRun(net: Net, run: seq<State>, n: nat)
    requires WellFormed(net) && IsRun(net, run) && 0 < n <= |run|
    ensures IsRun(net, run[..n])
  {
    forall i: nat | 0 < i < n ensures Linked(net, run[..n], i) { assert Linked(net, run, i); }
  }

  lemma TraceGrows(net: Net, run: seq<State>, acts: seq<Action>, a: Action)
    requires WellFormed(net) && |run| > 1 && IsTrace(net, run[..|run| - 1], acts)
    requires Shaped(net, run[|run| - 2]) && Step(net, run[|run| - 2], a) == Some(run[|run| - 1])
    ensures IsTrace(net, run, acts + [a])
  {
    forall i: nat | i < |acts| + 1 ensures Taken(net, run, acts + [a], i) {
      if i < |acts| { assert Taken(net, run[..|run| - 1], acts, i); }
    }
  }

  // ---------------------------------------------------------------- the log of one edge

  /**
   Frames in the order they were: returned by callbacks (`emitted`), put into the channel,
   shown to the edge policy, forwarded by it, offered to the open queue, taken in by the queue,
   taken off its front, and received by the consumer; signals returned by callbacks (`said`)
   and received by the consumer (`heard`); and how often the policy failed.
   */
  datatype Log = Log(
    emitted: seq<Frame>,
    sent: seq<Frame>,
    asked: seq<Frame>,
    forwarded: seq<Frame>,
    offered: seq<Frame>,
    kept: seq<Frame>,
    gone: seq<Frame>,
    received: seq<Frame>,
    said: seq<Signal>,
    heard: seq<Signal>,
    failures: nat)

  const EMPTY_LOG := Log([], [], [], [], [], [], [], [], [], [], 0)

  /** The worker of node `n` returns from a callback, and its output can be routed. */
  predicate Emits(net: Net, s: State, a: Action, n: nat)
    requires Shaped(net, s) && n < net.nodes
  {
    a.WorkerAct? && a.n == n && s.workers[n].pc.Calling? && a.choice.Returns? && OutputFits(net, n, a.choice.out)
  }

  function CallbackFrames(net: Net, s: State, a: Action, e: nat): seq<Frame>
    requires WellFormed(net) && Shaped(net, s) && e < |net.arcs|
  {
    assert WellFormedArc(net, net.arcs[e]);
    if Emits(net, s, a, net.arcs[e].src) then a.choice.out.batches[e] else []
  }

  function CallbackSignals(net: Net, s: State, a: Action, e: nat): seq<Signal>
    requires WellFormed(net) && Shaped(net, s) && e < |net.arcs|
  {
    assert WellFormedArc(net, net.arcs[e]);
    if Emits(net, s, a, net.arcs[e].src) then a.choice.out.signals else []
  }

  function InChannel(chan: seq<Message>): seq<Frame> {
    if chan != [] && chan[0].FrameBatch? then chan[0].frames else []
  }

  /** A batch appears in the empty channel. */
  function NewlySent(before: Edge, after: Edge): seq<Frame> {
    if before.chan == [] then InChannel(after.chan) else []
  }

  /** The dispatcher of edge `e` shows the next frame of its batch to the policy. */
  predicate Asks(es: Edge, a: Action, e: nat) {
    a.DispatcherAct? && a.e == e && es.disp.Applying? && es.disp.batch != []
  }

  predicate HasRoom(arc: Arc, es: Edge) {
    |es.queue| < arc.capacity
  }

  /** It offers a frame to the open queue, which takes it in, refuses it, or aborts or blocks its producer. */
  predicate Offers(arc: Arc, es: Edge, a: Action, e: nat) {
    && a.DispatcherAct? && a.e == e && es.disp.Pushing? && !es.queueClosed
    && (HasRoom(arc, es) || arc.overflow.DropOldest? || arc.overflow.DropNewest?)
  }

  predicate TakesIn(arc: Arc, es: Edge) {
    HasRoom(arc, es) || arc.overflow.DropOldest?
  }

  /** The consumer's scan has come to edge `e`. */
  predicate Visits(net: Net, w: Worker, off: nat, e: nat) {
    off < |net.arcs| && Visit(|net.arcs|, w.cursor, off) == e
  }

  predicate Receives(net: Net, s: State, a: Action, e: nat)
    requires WellFormed(net) && Shaped(net, s) && e < |net.arcs|
  {
    assert WellFormedArc(net, net.arcs[e]);
    var w := s.workers[net.arcs[e].dst];
    && a.WorkerAct? && a.n == net.arcs[e].dst
    && w.pc.ScanFrames? && Visits(net, w, w.pc.off, e) && s.edges[e].queue != []
  }

  predicate Hears(net: Net, s: State, a: Action, e: nat)
    requires WellFormed(net) && Shaped(net, s) && e < |net.arcs|
  {
    assert WellFormedArc(net, net.arcs[e]);
    var w := s.workers[net.arcs[e].dst];
    && a.WorkerAct? && a.n == net.arcs[e].dst
    && w.pc.ScanSignals? && Visits(net, w, w.pc.off, e) && s.edges[e].signals != []
  }

  function One(happens: bool, x: nat): seq<nat> {
    if happens then [x] else []
  }

  function Front(xs: seq<nat>): nat {
    if xs == [] then 0 else xs[0]
  }

  /** What a step of the edge's own dispatcher adds. */
  function Dispatched(log: Log, arc: Arc, es: Edge, a: Action, e: nat): Log {
    var asks, offers := Asks(es, a, e), Offers(arc, es, a, e);
    log.(asked := log.asked + (if asks then [es.disp.batch[0]] else []),
         forwarded := log.forwarded + (if asks && a.policy.Forward? then [a.policy.frame] else []),
         failures := log.failures + (if asks && a.policy.PolicyFails? then 1 else 0),
         offered := log.offered + (if offers then [es.disp.frame] else []),
         kept := log.kept + (if offers && TakesIn(arc, es) then [es.disp.frame] else []),
         gone := log.gone + (if offers && !HasRoom(arc, es) && arc.overflow.DropOldest? then [Front(es.queue)] else []))
  }

  /** What a step of a worker adds. */
  function Worked(net: Net, log: Log, s: State, a: Action, t: State, e: nat): Log
    requires WellFormed(net) && Shaped(net, s) && Shaped(net, t) && e < |net.arcs|
  {
    var es := s.edges[e];
    log.(emitted := log.emitted + CallbackFrames(net, s, a, e),
         sent := log.sent + NewlySent(es, t.edges[e]),
         gone := log.gone + One(Receives(net, s, a, e), Front(es.queue)),
         received := log.received + One(Receives(net, s, a, e), Front(es.queue)),
         said := log.said + CallbackSignals(net, s, a, e),
         heard := log.heard + One(Hears(net, s, a, e), Front(es.signals)))
  }

  function Observed(net: Net, log: Log, s: State, a: Action, t: State, e: nat): Log
    requires WellFormed(net) && Shaped(net, s) && Shaped(net, t) && e < |net.arcs|
  {
    match a
    case WorkerAct(_, _) => Worked(net, log, s, a, t, e)
    case DispatcherAct(_, _) => Dispatched(log, net.arcs[e], s.edges[e], a, e)
    case _ => log
  }

  lemma StepKeepsShape(net: Net, s: State, a: Action)
    requires WellFormed(net) && Shaped(net, s) && Step(net, s, a).Some?
    ensures Shaped(net, Step(net, s, a).value)
  {
  }

  /** Everything observed at edge `e` in the first `i` steps. */
  ghost function LogAt(net: Net, run: seq<State>, acts: seq<Action>, i: nat, e: nat): Log
    requires WellFormed(net) && IsTrace(net, run, acts) && i < |run| && e < |net.arcs|
  {
    if i == 0 then EMPTY_LOG
    else
      assert Taken(net, run, acts, i - 1);
      StepKeepsShape(net, run[i - 1], acts[i - 1]);
      Observed(net, LogAt(net, run, acts, i - 1, e), run[i - 1], acts[i - 1], run[i], e)
  }

  // ---------------------------------------------------------------- what the log tells

  /** The part of a batch the policy has not been asked about. */
  function Hand(d: DispatcherPc): seq<Frame> {
    match d
    case Applying(batch) => batch
    case Pushing(_, rest) => rest
    case Sleeping(_, rest) => rest
    case NotifyFrame(rest) => rest
    case _ => []
  }

  /** The forwarded frame that has not been offered to the queue. */
  function Holding(d: DispatcherPc): seq<Frame> {
    if d.Pushing? || d.Sleeping? then [d.frame] else []
  }

  /** What a callback returned for edge `e` and its worker has not sent. */
  function Unsent(pc: WorkerPc, e: nat): seq<Frame> {
    match pc
    case SignalSend(out, _) => BatchFor(out, e)
    case AckWait(out) => BatchFor(out, e)
    case ReasonCheck(out) => BatchFor(out, e)
    case TrySend(out, k, pending) => if k <= e || e in pending then BatchFor(out, e) else []
    case PendingSend(out, k, pending) => if k <= e && e in pending then BatchFor(out, e) else []
    case _ => []
  }

  function BatchFor(out: Output, e: nat): seq<Frame> {
    if e < |out.batches| then out.batches[e] else []
  }

  function SignalsInChannel(chan: seq<Message>): seq<Signal> {
    if chan != [] && chan[0].SignalBatch? then chan[0].signals else []
  }

  /** The part of a signal batch the target's queue has not accepted. */
  function SignalHand(d: DispatcherPc): seq<Signal> {
    match d
    case Signalling(all, done) => if done <= |all| then all[done..] else []
    case NotifySignal(all, done) => if done <= |all| then all[done..] else []
    case _ => []
  }

  function Unsaid(pc: WorkerPc, e: nat): seq<Signal> {
    if pc.SignalSend? && pc.next <= e then pc.out.signals else []
  }

  // ---------------------------------------------------------------- the accounts

  predicate EmissionOk(log: Log, pc: WorkerPc, e: nat) {
    && log.emitted == log.sent + Unsent(pc, e)
    && (pc.TrySend? && e in pc.pending ==> e < pc.next)
  }

  /** Until the dispatcher gives up, nothing it received is lost. */
  predicate BatchOk(log: Log, es: Edge) {
    if es.disp.DFailing? then log.asked <= log.sent
    else
      && log.sent == log.asked + Hand(es.disp) + InChannel(es.chan)
      && log.forwarded == log.offered + Holding(es.disp) && log.failures == 0
  }

  predicate QueueOk(log: Log, arc: Arc, es: Edge) {
    && es.entered == log.kept && es.left == log.received && log.kept == log.gone + es.queue
    && (!arc.overflow.DropNewest? ==> log.kept == log.offered)
    && (!arc.overflow.DropOldest? ==> log.received == log.gone)
  }

  predicate SpeechOk(log: Log, es: Edge, pc: WorkerPc, e: nat) {
    && es.accepted == log.heard + es.signals
    && (!es.disp.DFailing? ==>
        log.said == es.accepted + SignalHand(es.disp) + SignalsInChannel(es.chan) + Unsaid(pc, e))
  }

  predicate FlowOk(log: Log, arc: Arc, es: Edge, pc: WorkerPc, e: nat) {
    EmissionOk(log, pc, e) && BatchOk(log, es) && QueueOk(log, arc, es) && SpeechOk(log, es, pc, e)
  }

  // ---------------------------------------------------------------- steps of the edge's own dispatcher

  lemma ReceivingKeepsBatch(arc: Arc, es: Edge, alive: bool, ctl: Control, c: PolicyChoice, f: EdgeEffect, log: Log)
    requires es.disp.Receiving? && FrameEffect(arc, es, alive, ctl, c) == Some(f) && |es.chan| <= 1 && BatchOk(log, es)
    ensures BatchOk(log, f.edge)
  {
  }

  lemma ApplyingKeepsBatch(arc: Arc, es: Edge, alive: bool, ctl: Control, c: PolicyChoice, f: EdgeEffect, log: Log,
                           e: nat)
    requires es.disp.Applying? && FrameEffect(arc, es, alive, ctl, c) == Some(f) && BatchOk(log, es)
    ensures BatchOk(Dispatched(log, arc, es, DispatcherAct(e, c), e), f.edge)
  {
    var batch := es.disp.batch;
    if batch != [] {
      assert batch == [batch[0]] + batch[1..];
      assert log.asked + batch == (log.asked + [batch[0]]) + batch[1..];
    }
  }

  lemma PushingKeepsBatch(arc: Arc, es: Edge, ctl: Control, c: PolicyChoice, f: EdgeEffect, log: Log, e: nat)
    requires es.disp.Pushing? && PushStep(arc, es, es.disp.frame, es.disp.batch, ctl) == Some(f) && BatchOk(log, es)
    ensures BatchOk(Dispatched(log, arc, es, DispatcherAct(e, c), e), f.edge)
  {
  }

  /** What a push does to queue and history. */
  lemma PushEffect(arc: Arc, es: Edge, ctl: Control, f: EdgeEffect)
    requires es.disp.Pushing? && PushStep(arc, es, es.disp.frame, es.disp.batch, ctl) == Some(f)
    ensures var frame, a := es.disp.frame, f.edge;
            if es.queueClosed || (!HasRoom(arc, es) && !arc.overflow.DropOldest?)
            then a.queue == es.queue && a.entered == es.entered && a.left == es.left
            else
              && a.queue == (if HasRoom(arc, es) then es.queue + [frame] else (es.queue + [frame])[1..])
              && a.entered == es.entered + [frame] && a.left == es.left
  {
  }

  lemma GoneMoves(gone: seq<Frame>, queue: seq<Frame>, frame: Frame)
    ensures gone + (queue + [frame]) == (gone + queue) + [frame]
    ensures queue != [] ==> (gone + [queue[0]]) + (queue + [frame])[1..] == (gone + queue) + [frame]
  {
    if queue != [] { assert queue + [frame] == [queue[0]] + (queue + [frame])[1..]; }
  }

  lemma PushingKeepsQueue(arc: Arc, es: Edge, ctl: Control, c: PolicyChoice, f: EdgeEffect, log: Log, e: nat)
    requires es.disp.Pushing? && PushStep(arc, es, es.disp.frame, es.disp.batch, ctl) == Some(f) && 0 < arc.capacity
    requires QueueOk(log, arc, es)
    ensures QueueOk(Dispatched(log, arc, es, DispatcherAct(e, c), e), arc, f.edge)
  {
    PushEffect(arc, es, ctl, f);
    GoneMoves(log.gone, es.queue, es.disp.frame);
  }

  lemma ReceivingKeepsSpeech(arc: Arc, es: Edge, alive: bool, ctl: Control, c: PolicyChoice, f: EdgeEffect, log: Log,
                             pc: WorkerPc, e: nat)
    requires es.disp.Receiving? && FrameEffect(arc, es, alive, ctl, c) == Some(f) && |es.chan| <= 1
    requires SpeechOk(log, es, pc, e)
    ensures SpeechOk(log, f.edge, pc, e)
  {
  }

  /** The steps between receiving a batch and being done with it. */
  lemma FramesKeepSpeech(arc: Arc, es: Edge, alive: bool, ctl: Control, c: PolicyChoice, f: EdgeEffect, log: Log,
                         pc: WorkerPc, e: nat)
    requires FrameEffect(arc, es, alive, ctl, c) == Some(f) && |es.chan| <= 1 && SpeechOk(log, es, pc, e)
    ensures SpeechOk(log, f.edge, pc, e)
  {
    if es.disp.Receiving? { ReceivingKeepsSpeech(arc, es, alive, ctl, c, f, log, pc, e); }
  }

  lemma FrameStepKeepsBatch(arc: Arc, es: Edge, alive: bool, ctl: Control, c: PolicyChoice, f: EdgeEffect, log: Log,
                            e: nat)
    requires FrameEffect(arc, es, alive, ctl, c) == Some(f) && |es.chan| <= 1 && BatchOk(log, es)
    ensures BatchOk(Dispatched(log, arc, es, DispatcherAct(e, c), e), f.edge)
  {
    if es.disp.Receiving? { ReceivingKeepsBatch(arc, es, alive, ctl, c, f, log); }
    else if es.disp.Applying? { ApplyingKeepsBatch(arc, es, alive, ctl, c, f, log, e); }
    else if es.disp.Pushing? { PushingKeepsBatch(arc, es, ctl, c, f, log, e); }
  }

  lemma FrameStepKeepsQueue(arc: Arc, es: Edge, alive: bool, ctl: Control, c: PolicyChoice, f: EdgeEffect, log: Log,
                            e: nat)
    requires FrameEffect(arc, es, alive, ctl, c) == Some(f) && 0 < arc.capacity && QueueOk(log, arc, es)
    ensures QueueOk(Dispatched(log, arc, es, DispatcherAct(e, c), e), arc, f.edge)
  {
    if es.disp.Pushing? { PushingKeepsQueue(arc, es, ctl, c, f, log, e); }
  }

  lemma FrameStepKeepsFlow(arc: Arc, es: Edge, alive: bool, ctl: Control, c: PolicyChoice, f: EdgeEffect, log: Log,
                           pc: WorkerPc, e: nat)
    requires FrameEffect(arc, es, alive, ctl, c) == Some(f) && |es.chan| <= 1 && 0 < arc.capacity
    requires FlowOk(log, arc, es, pc, e)
    ensures FlowOk(Dispatched(log, arc, es, DispatcherAct(e, c), e), arc, f.edge, pc, e)
  {
    FramesKeepSpeech(arc, es, alive, ctl, c, f, log, pc, e);
    FrameStepKeepsBatch(arc, es, alive, ctl, c, f, log, e);
    FrameStepKeepsQueue(arc, es, alive, ctl, c, f, log, e);
  }

  lemma AcceptedMoves(accepted: seq<Signal>, all: seq<Signal>, k: nat)
    requires k < |all|
    ensures accepted + all[k..] == (accepted + [all[k]]) + all[k + 1..]
  {
    assert all[k..] == [all[k]] + all[k + 1..];
  }

  lemma SignalStepKeepsSpeech(capacity: nat, es: Edge, ctl: Control, c: PolicyChoice, f: EdgeEffect, log: Log,
                              pc: WorkerPc, e: nat)
    requires SignalEffect(capacity, es, ctl, c) == Some(f) && SpeechOk(log, es, pc, e)
    ensures SpeechOk(log, f.edge, pc, e)
  {
    if es.disp.Signalling? && es.disp.done < |es.disp.all| {
      AcceptedMoves(es.accepted, es.disp.all, es.disp.done);
    }
  }

  lemma SignalStepKeepsFlow(arc: Arc, capacity: nat, es: Edge, ctl: Control, c: PolicyChoice, f: EdgeEffect, log: Log,
                            pc: WorkerPc, e: nat)
    requires SignalEffect(capacity, es, ctl, c) == Some(f) && FlowOk(log, arc, es, pc, e)
    ensures FlowOk(log, arc, f.edge, pc, e)
  {
    SignalStepKeepsSpeech(capacity, es, ctl, c, f, log, pc, e);
  }

  lemma ExitStepKeepsFlow(arc: Arc, mode: DrainMode, es: Edge, ctl: Control, f: EdgeEffect, log: Log,
                          pc: WorkerPc, e: nat)
    requires ExitEffect(mode, es, ctl) == Some(f) && FlowOk(log, arc, es, pc, e) && !ctl.aborted && !f.ctl.aborted
    requires !es.disp.DClosing? && !es.disp.Acking?
    ensures FlowOk(log, arc, f.edge, pc, e)
  {
  }

  lemma DispatcherKeepsFlow(net: Net, arc: Arc, es: Edge, alive: bool, ctl: Control, c: PolicyChoice, f: EdgeEffect,
                            log: Log, w: Worker, e: nat)
    requires DispatcherEffect(net, arc, es, alive, ctl, c) == Some(f) && !ctl.aborted && !f.ctl.aborted
    requires ShapeOk(arc, es, ctl) && ExitOk(e, es, w, ctl) && 0 < arc.capacity && FlowOk(log, arc, es, w.pc, e)
    ensures FlowOk(Dispatched(log, arc, es, DispatcherAct(e, c), e), arc, f.edge, w.pc, e)
  {
    if es.disp.Receiving? || es.disp.Applying? || es.disp.Pushing? || es.disp.NotifyFrame? {
      FrameStepKeepsFlow(arc, es, alive, ctl, c, f, log, w.pc, e);
    } else {
      assert Dispatched(log, arc, es, DispatcherAct(e, c), e) == log;
      if es.disp.Signalling? || es.disp.NotifySignal? {
        SignalStepKeepsFlow(arc, net.signalCapacity, es, ctl, c, f, log, w.pc, e);
      } else {
        ExitStepKeepsFlow(arc, net.failureMode, es, ctl, f, log, w.pc, e);
      }
    }
  }

  // ---------------------------------------------------------------- steps of the producer

  /** While the producer is alive and nothing has aborted, so is the receiver of its channel. */
  predicate Open(es: Edge) {
    ReceiverAlive(es.disp) && |es.chan| <= 1
  }

  lemma FramesKeepEmission(net: Net, s: State, n: nat, f: Effect, log: Log, e: nat)
    requires WellFormed(net) && Shaped(net, s) && n < net.nodes && e < |net.arcs| && net.arcs[e].src == n
    requires FramesStep(net, s, n) == Some(f) && PcFits(net, n, s.workers[n]) && Open(s.edges[e])
    requires forall k :: 0 <= k < |net.arcs| && net.arcs[k].src == n ==> ReceiverAlive(s.edges[k].disp)
    requires EmissionOk(log, s.workers[n].pc, e)
    ensures EmissionOk(log.(sent := log.sent + NewlySent(s.edges[e], EdgeAfter(s, f, e))), f.worker.pc, e)
  {
  }

  lemma FramesKeepBatch(net: Net, s: State, n: nat, f: Effect, log: Log, e: nat)
    requires WellFormed(net) && Shaped(net, s) && n < net.nodes && e < |net.arcs| && FramesStep(net, s, n) == Some(f)
    requires Open(s.edges[e]) && BatchOk(log, s.edges[e])
    ensures BatchOk(log.(sent := log.sent + NewlySent(s.edges[e], EdgeAfter(s, f, e))), EdgeAfter(s, f, e))
  {
  }

  lemma RoutedKeepsQueue(net: Net, s: State, n: nat, c: Choice, f: Effect, log: Log, e: nat)
    requires WellFormed(net) && Shaped(net, s) && n < net.nodes && e < |net.arcs| && IsRouting(s.workers[n].pc)
    requires WorkerEffect(net, s, n, c) == Some(f) && QueueOk(log, net.arcs[e], s.edges[e])
    ensures QueueOk(log, net.arcs[e], EdgeAfter(s, f, e))
  {
  }

  lemma FrameSendLeavesSignals(net: Net, s: State, n: nat, f: Effect, e: nat)
    requires WellFormed(net) && Shaped(net, s) && n < net.nodes && e < |net.arcs|
    requires FramesStep(net, s, n) == Some(f)
    ensures var es, after := s.edges[e], EdgeAfter(s, f, e);
            && after.accepted == es.accepted && after.signals == es.signals && after.disp == es.disp
            && SignalsInChannel(after.chan) == SignalsInChannel(es.chan)
            && Unsaid(f.worker.pc, e) == Unsaid(s.workers[n].pc, e)
  {
  }

  lemma FrameSendKeepsSpeech(net: Net, s: State, n: nat, f: Effect, log: Log, e: nat)
    requires WellFormed(net) && Shaped(net, s) && n < net.nodes && e < |net.arcs| && net.arcs[e].src == n
    requires FramesStep(net, s, n) == Some(f) && SpeechOk(log, s.edges[e], s.workers[n].pc, e)
    ensures SpeechOk(log, EdgeAfter(s, f, e), f.worker.pc, e)
  {
    FrameSendLeavesSignals(net, s, n, f, e);
  }

  /** Until an abort no acknowledgement is lost, so the barrier is passed. */
  lemma BarrierGoesOn(net: Net, s: State, n: nat, c: Choice, f: Effect)
    requires WellFormed(net) && Inv(net, s) && n < net.nodes && BarrierStep(net, s, n, c) == Some(f) && !s.ctl.aborted
    ensures !f.worker.pc.Failing?
  {
    var pc := s.workers[n].pc;
    if pc.SignalSend? && pc.next < |net.arcs| { assert EdgeHolds(net, s, pc.next); }
    if pc.AckWait? && !AllReceived(net, s, n) {
      var k :| 0 <= k < |net.arcs| && net.arcs[k].src == n && s.edges[k].ack != Received;
      assert EdgeHolds(net, s, k);
    }
  }

  lemma BarrierKeepsEmission(net: Net, s: State, n: nat, c: Choice, f: Effect, log: Log, e: nat)
    requires WellFormed(net) && Shaped(net, s) && n < net.nodes && e < |net.arcs|
    requires BarrierStep(net, s, n, c) == Some(f) && !f.worker.pc.Failing? && EmissionOk(log, s.workers[n].pc, e)
    ensures EmissionOk(log, f.worker.pc, e)
  {
  }

  lemma BarrierKeepsBatch(net: Net, s: State, n: nat, c: Choice, f: Effect, log: Log, e: nat)
    requires WellFormed(net) && Shaped(net, s) && n < net.nodes && e < |net.arcs|
    requires BarrierStep(net, s, n, c) == Some(f) && BatchOk(log, s.edges[e])
    ensures BatchOk(log, EdgeAfter(s, f, e)) && NewlySent(s.edges[e], EdgeAfter(s, f, e)) == []
  {
  }

  lemma SignalSendKeepsSpeech(net: Net, s: State, n: nat, c: Choice, f: Effect, log: Log, e: nat)
    requires WellFormed(net) && Shaped(net, s) && n < net.nodes && e < |net.arcs| && net.arcs[e].src == n
    requires s.workers[n].pc.SignalSend? && BarrierStep(net, s, n, c) == Some(f) && !f.worker.pc.Failing?
    requires SpeechOk(log, s.edges[e], s.workers[n].pc, e)
    ensures SpeechOk(log, EdgeAfter(s, f, e), f.worker.pc, e)
  {
  }

  lemma BarrierKeepsSpeech(net: Net, s: State, n: nat, c: Choice, f: Effect, log: Log, e: nat)
    requires WellFormed(net) && Shaped(net, s) && n < net.nodes && e < |net.arcs| && net.arcs[e].src == n
    requires BarrierStep(net, s, n, c) == Some(f) && !f.worker.pc.Failing?
    requires SpeechOk(log, s.edges[e], s.workers[n].pc, e)
    ensures SpeechOk(log, EdgeAfter(s, f, e), f.worker.pc, e)
  {
    if s.workers[n].pc.SignalSend? { SignalSendKeepsSpeech(net, s, n, c, f, log, e); }
  }

  /** A callback's output is at first entirely unsent. */
  lemma LifecycleKeepsFlow(net: Net, s: State, n: nat, c: Choice, f: Effect, log: Log, after: Log, e: nat)
    requires WellFormed(net) && Shaped(net, s) && n < net.nodes && e < |net.arcs| && net.arcs[e].src == n
    requires LifecycleStep(net, s, n, c) == Some(f) && FlowOk(log, net.arcs[e], s.edges[e], s.workers[n].pc, e)
    requires after == log.(emitted := log.emitted + CallbackFrames(net, s, WorkerAct(n, c), e),
                           said := log.said + CallbackSignals(net, s, WorkerAct(n, c), e))
    ensures EmissionOk(after, f.worker.pc, e) && SpeechOk(after, s.edges[e], f.worker.pc, e)
  {
  }

  // ---------------------------------------------------------------- steps of the consumer

  lemma ScanTakes(net: Net, s: State, n: nat, c: Choice, f: Effect, e: nat)
    requires WellFormed(net) && Shaped(net, s) && n < net.nodes && e < |net.arcs| && net.arcs[e].dst == n
    requires ScanStep(net, s, n, c) == Some(f)
    ensures var es, after := s.edges[e], EdgeAfter(s, f, e);
            && after.entered == es.entered
            && (if Receives(net, s, WorkerAct(n, c), e)
                then after.queue == es.queue[1..] && after.left == es.left + [es.queue[0]]
                else after.queue == es.queue && after.left == es.left)
  {
  }

  lemma ScanHears(net: Net, s: State, n: nat, c: Choice, f: Effect, e: nat)
    requires WellFormed(net) && Shaped(net, s) && n < net.nodes && e < |net.arcs| && net.arcs[e].dst == n
    requires ScanStep(net, s, n, c) == Some(f)
    ensures var es, after := s.edges[e], EdgeAfter(s, f, e);
            && after.signals == (if Hears(net, s, WorkerAct(n, c), e) then es.signals[1..] else es.signals)
            && after.accepted == es.accepted && after.chan == es.chan
            && SignalHand(after.disp) == SignalHand(es.disp) && after.disp.DFailing? == es.disp.DFailing?
  {
  }

  lemma FrontMoves(out: seq<nat>, queue: seq<nat>)
    requires queue != []
    ensures out + queue == (out + [queue[0]]) + queue[1..]
  {
    assert queue == [queue[0]] + queue[1..];
  }

  /** A frame, if one is taken, goes from the front of the queue to what is gone and received. */
  lemma TakingKeepsQueue(log: Log, after: Log, arc: Arc, es: Edge, rest: Edge, takes: bool)
    requires QueueOk(log, arc, es) && (takes ==> es.queue != []) && rest.entered == es.entered
    requires var taken := One(takes, Front(es.queue));
             after == log.(gone := log.gone + taken, received := log.received + taken)
    requires if takes then rest.queue == es.queue[1..] && rest.left == es.left + [es.queue[0]]
             else rest.queue == es.queue && rest.left == es.left
    ensures QueueOk(after, arc, rest)
  {
    if takes { FrontMoves(log.gone, es.queue); }
  }

  lemma ScanKeepsQueue(net: Net, s: State, n: nat, c: Choice, f: Effect, log: Log, after: Log, e: nat)
    requires WellFormed(net) && Shaped(net, s) && n < net.nodes && e < |net.arcs| && net.arcs[e].dst == n
    requires ScanStep(net, s, n, c) == Some(f) && QueueOk(log, net.arcs[e], s.edges[e])
    requires var taken := One(Receives(net, s, WorkerAct(n, c), e), Front(s.edges[e].queue));
             after == log.(gone := log.gone + taken, received := log.received + taken)
    ensures QueueOk(after, net.arcs[e], EdgeAfter(s, f, e))
  {
    var takes := Receives(net, s, WorkerAct(n, c), e);
    ScanTakes(net, s, n, c, f, e);
    TakingKeepsQueue(log, after, net.arcs[e], s.edges[e], EdgeAfter(s, f, e), takes);
  }

  lemma HearingKeepsSpeech(log: Log, after: Log, es: Edge, rest: Edge, pc: WorkerPc, e: nat, hears: bool)
    requires SpeechOk(log, es, pc, e) && (hears ==> es.signals != [])
    requires after == log.(heard := log.heard + One(hears, Front(es.signals)))
    requires rest.signals == (if hears then es.signals[1..] else es.signals)
    requires rest.accepted == es.accepted && rest.chan == es.chan
    requires SignalHand(rest.disp) == SignalHand(es.disp) && rest.disp.DFailing? == es.disp.DFailing?
    ensures SpeechOk(after, rest, pc, e)
  {
    if hears { FrontMoves(log.heard, es.signals); }
  }

  lemma ScanKeepsSpeech(net: Net, s: State, n: nat, c: Choice, f: Effect, log: Log, after: Log, pc: WorkerPc, e: nat)
    requires WellFormed(net) && Shaped(net, s) && n < net.nodes && e < |net.arcs| && net.arcs[e].dst == n
    requires ScanStep(net, s, n, c) == Some(f) && SpeechOk(log, s.edges[e], pc, e)
    requires after == log.(heard := log.heard + One(Hears(net, s, WorkerAct(n, c), e), Front(s.edges[e].signals)))
    ensures SpeechOk(after, EdgeAfter(s, f, e), pc, e)
  {
    var hears := Hears(net, s, WorkerAct(n, c), e);
    ScanHears(net, s, n, c, f, e);
    HearingKeepsSpeech(log, after, s.edges[e], EdgeAfter(s, f, e), pc, e, hears);
  }

  lemma ScanKeepsBatch(net: Net, s: State, n: nat, c: Choice, f: Effect, log: Log, e: nat)
    requires WellFormed(net) && Shaped(net, s) && n < net.nodes && e < |net.arcs|
    requires ScanStep(net, s, n, c) == Some(f) && BatchOk(log, s.edges[e])
    ensures BatchOk(log, EdgeAfter(s, f, e)) && NewlySent(s.edges[e], EdgeAfter(s, f, e)) == []
  {
  }

  // ---------------------------------------------------------------- every worker step

  /** The producer's step adds what it returned and what it sent. */
  lemma ProducerLog(net: Net, s: State, n: nat, c: Choice, f: Effect, t: State, log: Log, e: nat)
    requires WellFormed(net) && Shaped(net, s) && Shaped(net, t) && n < net.nodes && e < |net.arcs|
    requires net.arcs[e].src == n && t == ApplyWorker(s, n, f)
    ensures Worked(net, log, s, WorkerAct(n, c), t, e) ==
            log.(emitted := log.emitted + CallbackFrames(net, s, WorkerAct(n, c), e),
                 sent := log.sent + NewlySent(s.edges[e], EdgeAfter(s, f, e)),
                 said := log.said + CallbackSignals(net, s, WorkerAct(n, c), e))
  {
    assert WellFormedArc(net, net.arcs[e]);
    assert t.edges[e] == EdgeAfter(s, f, e);
  }

  lemma ConsumerLog(net: Net, s: State, n: nat, c: Choice, f: Effect, t: State, log: Log, e: nat)
    requires WellFormed(net) && Shaped(net, s) && Shaped(net, t) && n < net.nodes && e < |net.arcs|
    requires net.arcs[e].src != n && t == ApplyWorker(s, n, f) && NewlySent(s.edges[e], EdgeAfter(s, f, e)) == []
    ensures var taken := One(Receives(net, s, WorkerAct(n, c), e), Front(s.edges[e].queue));
            Worked(net, log, s, WorkerAct(n, c), t, e) ==
            log.(gone := log.gone + taken, received := log.received + taken,
                 heard := log.heard + One(Hears(net, s, WorkerAct(n, c), e), Front(s.edges[e].signals)))
  {
    assert t.edges[e] == EdgeAfter(s, f, e);
  }

  lemma ReceiversAreAlive(net: Net, s: State, n: nat)
    requires WellFormed(net) && Inv(net, s) && !s.ctl.aborted && n < net.nodes
    requires !s.workers[n].pc.Leaving? && !s.workers[n].pc.Exited?
    ensures forall k :: 0 <= k < |net.arcs| && net.arcs[k].src == n ==> Open(s.edges[k])
  {
    forall k | 0 <= k < |net.arcs| && net.arcs[k].src == n ensures Open(s.edges[k]) { assert EdgeHolds(net, s, k); }
  }

  /** Routing returns from no callback. */
  lemma RoutingLog(net: Net, s: State, n: nat, c: Choice, f: Effect, t: State, log: Log, e: nat)
    requires WellFormed(net) && Shaped(net, s) && Shaped(net, t) && n < net.nodes && e < |net.arcs|
    requires net.arcs[e].src == n && t == ApplyWorker(s, n, f) && IsRouting(s.workers[n].pc)
    ensures t.edges[e] == EdgeAfter(s, f, e) && t.workers[n] == f.worker
    ensures Worked(net, log, s, WorkerAct(n, c), t, e) ==
            log.(sent := log.sent + NewlySent(s.edges[e], EdgeAfter(s, f, e)))
  {
    ProducerLog(net, s, n, c, f, t, log, e);
    assert CallbackFrames(net, s, WorkerAct(n, c), e) == [] && CallbackSignals(net, s, WorkerAct(n, c), e) == [];
  }

  lemma SendingKeepsFlow(net: Net, s: State, n: nat, c: Choice, f: Effect, t: State, log: Log, e: nat)
    requires WellFormed(net) && Inv(net, s) && Shaped(net, t) && n < net.nodes && e < |net.arcs| && net.arcs[e].src == n
    requires SendingFrames(s.workers[n].pc) && FramesStep(net, s, n) == Some(f) && t == ApplyWorker(s, n, f)
    requires !s.ctl.aborted && FlowOk(log, net.arcs[e], s.edges[e], s.workers[n].pc, e)
    ensures FlowOk(Worked(net, log, s, WorkerAct(n, c), t, e), net.arcs[e], t.edges[e], t.workers[n].pc, e)
  {
    ReceiversAreAlive(net, s, n);
    assert WorkerOk(net, n, s.workers[n], s.ctl);
    FramesKeepEmission(net, s, n, f, log, e);
    FramesKeepBatch(net, s, n, f, log, e);
    RoutedKeepsQueue(net, s, n, c, f, log, e);
    FrameSendKeepsSpeech(net, s, n, f, log, e);
    RoutingLog(net, s, n, c, f, t, log, e);
  }

  lemma BarrierKeepsFlow(net: Net, s: State, n: nat, c: Choice, f: Effect, t: State, log: Log, e: nat)
    requires WellFormed(net) && Inv(net, s) && Shaped(net, t) && n < net.nodes && e < |net.arcs| && net.arcs[e].src == n
    requires IsRouting(s.workers[n].pc) && BarrierStep(net, s, n, c) == Some(f) && t == ApplyWorker(s, n, f)
    requires !s.ctl.aborted && FlowOk(log, net.arcs[e], s.edges[e], s.workers[n].pc, e)
    ensures FlowOk(Worked(net, log, s, WorkerAct(n, c), t, e), net.arcs[e], t.edges[e], t.workers[n].pc, e)
  {
    BarrierGoesOn(net, s, n, c, f);
    BarrierKeepsEmission(net, s, n, c, f, log, e);
    BarrierKeepsBatch(net, s, n, c, f, log, e);
    RoutedKeepsQueue(net, s, n, c, f, log, e);
    BarrierKeepsSpeech(net, s, n, c, f, log, e);
    RoutingLog(net, s, n, c, f, t, log, e);
  }

  lemma LivingKeepsFlow(net: Net, s: State, n: nat, c: Choice, f: Effect, t: State, log: Log, e: nat)
    requires WellFormed(net) && Inv(net, s) && Shaped(net, t) && n < net.nodes && e < |net.arcs| && net.arcs[e].src == n
    requires LifecycleStep(net, s, n, c) == Some(f) && t == ApplyWorker(s, n, f)
    requires FlowOk(log, net.arcs[e], s.edges[e], s.workers[n].pc, e)
    ensures FlowOk(Worked(net, log, s, WorkerAct(n, c), t, e), net.arcs[e], t.edges[e], t.workers[n].pc, e)
  {
    LifecycleTouches(net, s, n, c);
    ProducerLog(net, s, n, c, f, t, log, e);
    LifecycleKeepsFlow(net, s, n, c, f, log, Worked(net, log, s, WorkerAct(n, c), t, e), e);
  }

  /** The producer scanning its own inputs. */
  lemma LookingKeepsFlow(net: Net, s: State, n: nat, c: Choice, f: Effect, t: State, log: Log, e: nat)
    requires WellFormed(net) && Inv(net, s) && Shaped(net, t) && n < net.nodes && e < |net.arcs| && net.arcs[e].src == n
    requires IsScanning(s.workers[n].pc) && ScanStep(net, s, n, c) == Some(f) && t == ApplyWorker(s, n, f)
    requires FlowOk(log, net.arcs[e], s.edges[e], s.workers[n].pc, e)
    ensures FlowOk(Worked(net, log, s, WorkerAct(n, c), t, e), net.arcs[e], t.edges[e], t.workers[n].pc, e)
  {
    assert WellFormedArc(net, net.arcs[e]) && WorkerOk(net, n, s.workers[n], s.ctl);
    ScanTouches(net, s, n, c, e);
    ScanMoves(net, s, n, c);
    ProducerLog(net, s, n, c, f, t, log, e);
    assert Worked(net, log, s, WorkerAct(n, c), t, e) == log;
  }

  lemma TakingKeepsFlow(net: Net, s: State, n: nat, c: Choice, f: Effect, t: State, log: Log, e: nat)
    requires WellFormed(net) && Inv(net, s) && Shaped(net, t) && n < net.nodes && e < |net.arcs| && net.arcs[e].dst == n
    requires IsScanning(s.workers[n].pc) && ScanStep(net, s, n, c) == Some(f) && t == ApplyWorker(s, n, f)
    requires var pc := s.workers[net.arcs[e].src].pc;
             FlowOk(log, net.arcs[e], s.edges[e], pc, e) && t.workers[net.arcs[e].src].pc == pc
    ensures FlowOk(Worked(net, log, s, WorkerAct(n, c), t, e), net.arcs[e], t.edges[e],
                   t.workers[net.arcs[e].src].pc, e)
  {
    assert WellFormedArc(net, net.arcs[e]);
    var l := Worked(net, log, s, WorkerAct(n, c), t, e);
    ScanKeepsBatch(net, s, n, c, f, log, e);
    ConsumerLog(net, s, n, c, f, t, log, e);
    ScanKeepsQueue(net, s, n, c, f, log, l.(heard := log.heard), e);
    ScanKeepsSpeech(net, s, n, c, f, log, log.(heard := l.heard), t.workers[net.arcs[e].src].pc, e);
  }

  /** A worker that is not at one of its inputs, or not at this edge at all. */
  lemma StrangerKeepsFlow(net: Net, s: State, n: nat, c: Choice, f: Effect, t: State, log: Log, e: nat)
    requires WellFormed(net) && Inv(net, s) && Shaped(net, t) && n < net.nodes && e < |net.arcs| && net.arcs[e].src != n
    requires WorkerEffect(net, s, n, c) == Some(f) && t == ApplyWorker(s, n, f)
    requires net.arcs[e].dst != n || !IsScanning(s.workers[n].pc)
    requires FlowOk(log, net.arcs[e], s.edges[e], s.workers[net.arcs[e].src].pc, e)
    ensures FlowOk(Worked(net, log, s, WorkerAct(n, c), t, e), net.arcs[e], t.edges[e],
                   t.workers[net.arcs[e].src].pc, e)
  {
    assert WellFormedArc(net, net.arcs[e]) && WorkerOk(net, n, s.workers[n], s.ctl);
    WorkerLeavesOthers(net, s, n, c, f, e);
    ConsumerLog(net, s, n, c, f, t, log, e);
    assert Worked(net, log, s, WorkerAct(n, c), t, e) == log;
  }

  lemma WorkerLeavesOthers(net: Net, s: State, n: nat, c: Choice, f: Effect, e: nat)
    requires WellFormed(net) && Inv(net, s) && n < net.nodes && e < |net.arcs| && net.arcs[e].src != n
    requires WorkerEffect(net, s, n, c) == Some(f) && (net.arcs[e].dst != n || !IsScanning(s.workers[n].pc))
    ensures f.changed != Some(e) || f.edge == s.edges[e]
  {
    var pc := s.workers[n].pc;
    assert WorkerOk(net, n, s.workers[n], s.ctl) && EdgeHolds(net, s, e);
    if SendingFrames(pc) { FramesTouches(net, s, n, e); }
    else if IsRouting(pc) { BarrierTouches(net, s, n, c, e); }
    else if IsScanning(pc) { ScanTouches(net, s, n, c, e); }
    else { LifecycleTouches(net, s, n, c); }
  }

  // ---------------------------------------------------------------- every run

  predicate FlowHolds(net: Net, log: Log, s: State, e: nat)
    requires WellFormed(net) && Shaped(net, s) && e < |net.arcs|
  {
    assert WellFormedArc(net, net.arcs[e]);
    FlowOk(log, net.arcs[e], s.edges[e], s.workers[net.arcs[e].src].pc, e)
  }

  lemma WorkerKeepsFlow(net: Net, s: State, n: nat, c: Choice, f: Effect, t: State, log: Log, e: nat)
    requires WellFormed(net) && Inv(net, s) && Shaped(net, t) && n < net.nodes && e < |net.arcs| && !s.ctl.aborted
    requires WorkerEffect(net, s, n, c) == Some(f) && t == ApplyWorker(s, n, f) && FlowHolds(net, log, s, e)
    ensures FlowHolds(net, Worked(net, log, s, WorkerAct(n, c), t, e), t, e)
  {
    var arc, pc := net.arcs[e], s.workers[n].pc;
    assert WellFormedArc(net, arc);
    if n == arc.src {
      if SendingFrames(pc) { SendingKeepsFlow(net, s, n, c, f, t, log, e); }
      else if IsRouting(pc) { BarrierKeepsFlow(net, s, n, c, f, t, log, e); }
      else if IsScanning(pc) { LookingKeepsFlow(net, s, n, c, f, t, log, e); }
      else { LivingKeepsFlow(net, s, n, c, f, t, log, e); }
    } else if n == arc.dst && IsScanning(pc) {
      TakingKeepsFlow(net, s, n, c, f, t, log, e);
    } else {
      StrangerKeepsFlow(net, s, n, c, f, t, log, e);
    }
  }

  lemma PushesKeepFlow(net: Net, s: State, k: nat, c: PolicyChoice, t: State, log: Log, e: nat)
    requires WellFormed(net) && Inv(net, s) && Shaped(net, t) && e < |net.arcs| && !s.ctl.aborted && !t.ctl.aborted
    requires Step(net, s, DispatcherAct(k, c)) == Some(t) && FlowHolds(net, log, s, e)
    ensures FlowHolds(net, Dispatched(log, net.arcs[e], s.edges[e], DispatcherAct(k, c), e), t, e)
  {
    var arc, es := net.arcs[e], s.edges[e];
    assert WellFormedArc(net, arc) && EdgeHolds(net, s, e);
    if k == e {
      var w := s.workers[arc.src];
      var f := DispatcherEffect(net, arc, es, SenderAlive(w, e), s.ctl, c).value;
      DispatcherKeepsFlow(net, arc, es, SenderAlive(w, e), s.ctl, c, f, log, w, e);
    } else {
      assert Dispatched(log, arc, es, DispatcherAct(k, c), e) == log;
    }
  }

  lemma StepKeepsFlow(net: Net, s: State, a: Action, t: State, log: Log, e: nat)
    requires WellFormed(net) && Inv(net, s) && Shaped(net, t) && e < |net.arcs| && !s.ctl.aborted && !t.ctl.aborted
    requires Step(net, s, a) == Some(t) && FlowHolds(net, log, s, e)
    ensures FlowHolds(net, Observed(net, log, s, a, t, e), t, e)
  {
    match a
    case WorkerAct(n, c) => WorkerKeepsFlow(net, s, n, c, WorkerEffect(net, s, n, c).value, t, log, e);
    case DispatcherAct(k, c) => PushesKeepFlow(net, s, k, c, t, log, e);
    case SweepAct =>
    case StopAct =>
  }

  lemma AbortLasts(net: Net, run: seq<State>, i: nat)
    requires WellFormed(net) && IsRun(net, run) && 0 < i < |run|
    ensures run[i - 1].ctl.aborted ==> run[i].ctl.aborted
  {
    if run[i - 1].ctl.aborted { RuntimeProgress.AbortStays(net, run, i - 1, i); }
  }

  lemma FlowAfter(net: Net, run: seq<State>, acts: seq<Action>, i: nat, e: nat)
    requires WellFormed(net) && IsTrace(net, run, acts) && 0 < i < |run| && e < |net.arcs|
    requires !run[i - 1].ctl.aborted && !run[i].ctl.aborted && Inv(net, run[i - 1]) && Shaped(net, run[i])
    requires FlowHolds(net, LogAt(net, run, acts, i - 1, e), run[i - 1], e)
    ensures FlowHolds(net, LogAt(net, run, acts, i, e), run[i], e)
  {
    assert Taken(net, run, acts, i - 1);
    StepKeepsFlow(net, run[i - 1], acts[i - 1], run[i], LogAt(net, run, acts, i - 1, e), e);
  }

  lemma {:induction false} FlowOnTrace(net: Net, run: seq<State>, acts: seq<Action>, i: nat, e: nat)
    requires WellFormed(net) && IsTrace(net, run, acts) && i < |run| && e < |net.arcs| && !run[i].ctl.aborted
    ensures Inv(net, run[i]) && FlowHolds(net, LogAt(net, run, acts, i, e), run[i], e)
  {
    TraceIsRun(net, run, acts);
    RunKeepsInv(net, run, i);
    if i > 0 {
      AbortLasts(net, run, i);
      FlowOnTrace(net, run, acts, i - 1, e);
      FlowAfter(net, run, acts, i, e);
    }
  }

  /**
   At every moment before an abort, on every edge: what callbacks returned is what was sent and
   what their worker still has to send; what was sent is what the policy was shown, the rest in
   the dispatcher's hand and the channel's content, in that order; what the policy forwarded
   was offered to the queue, except the frame being pushed; what the queue took in has left it
   at the front or is in it. The same goes for signals.
   */
  lemma NothingIsLost(net: Net, run: seq<State>, acts: seq<Action>, i: nat, e: nat)
    requires WellFormed(net) && IsTrace(net, run, acts) && i < |run| && e < |net.arcs|
    requires !run[i].ctl.aborted && Shaped(net, run[i]) && !run[i].edges[e].disp.DFailing?
    ensures var log, es, pc := LogAt(net, run, acts, i, e), run[i].edges[e], run[i].workers[net.arcs[e].src].pc;
            && log.emitted == log.sent + Unsent(pc, e)
            && log.sent == log.asked + Hand(es.disp) + InChannel(es.chan)
            && log.forwarded == log.offered + Holding(es.disp) && log.failures == 0
            && log.kept == log.gone + es.queue && es.left == log.received
            && log.said == log.heard + es.signals + SignalHand(es.disp) + SignalsInChannel(es.chan) + Unsaid(pc, e)
  {
    FlowOnTrace(net, run, acts, i, e);
  }

  /**
   A run that ends without an abort has shown every frame its callbacks returned to the edge's
   policy, and has handed every frame the policies forwarded to the consumer, in order, except
   those a full queue refused or evicted as its overflow policy says; and every signal.
   */
  lemma CleanRunDeliversAll(net: Net, run: seq<State>, acts: seq<Action>, i: nat, e: nat)
    requires WellFormed(net) && IsTrace(net, run, acts) && i < |run| && e < |net.arcs| && Shaped(net, run[i])
    requires AllExited(run[i]) && !run[i].ctl.aborted
    ensures Shut(run[i].edges[e]) && run[i].edges[e].chan == []
    ensures var log, overflow := LogAt(net, run, acts, i, e), net.arcs[e].overflow;
            && log.asked == log.emitted && log.failures == 0 && log.offered == log.forwarded && log.gone == log.kept
            && (!overflow.DropNewest? ==> log.kept == log.forwarded)
            && (!overflow.DropOldest? ==> log.received == log.kept)
            && (overflow.Block? || overflow.AbortRun? ==> log.received == log.forwarded)
            && log.heard == log.said
    ensures run[i].edges[e].left == LogAt(net, run, acts, i, e).received
    ensures !net.arcs[e].overflow.DropOldest? ==> run[i].edges[e].left == run[i].edges[e].entered
  {
    FlowOnTrace(net, run, acts, i, e);
    assert WellFormedArc(net, net.arcs[e]) && EdgeHolds(net, run[i], e);
  }
}
