/** Every internal step of the concurrent runtime lowers the measure, so its threads come to rest. */
module RuntimeProgress {
  import opened Optional
  import opened QueuePolicies
  import opened RuntimeModel
  import opened RuntimeInvariant
  import opened RuntimeSteps
  import opened RuntimeTheorems
  import opened RuntimeMeasure

  // ---------------------------------------------------------------- the weights of one network

  function NodeSend(net: Net, budget: nat, n: nat): nat
    requires n < net.nodes
  {
    SendWork(|net.arcs|, budget, net.nodes - n)
  }

  function NodeCall(net: Net, budget: nat, n: nat): nat
    requires n < net.nodes
  {
    CallWork(|net.arcs|, NodeSend(net, budget, n))
  }

  function NodeWork(net: Net, budget: nat, n: nat, w: Worker): nat
    requires n < net.nodes
  {
    WorkerWork(|net.arcs|, NodeSend(net, budget, n), NodeCall(net, budget, n), w)
  }

  function ArcItem(net: Net, budget: nat, a: Arc): nat {
    if a.dst < net.nodes then ItemWork(|net.arcs|, budget, net.nodes - a.dst) else 0
  }

  function ArcFrame(net: Net, budget: nat, a: Arc): nat {
    ArcItem(net, budget, a) + BumpWork(|net.arcs|) + 3
  }

  function ArcWork(net: Net, budget: nat, a: Arc, es: Edge): nat {
    EdgeWork(BumpWork(|net.arcs|), ArcFrame(net, budget, a), ArcItem(net, budget, a), es)
  }

  lemma ArcFits(net: Net, budget: nat, a: Arc)
    requires WellFormed(net) && WellFormedArc(net, a)
    ensures ArcItem(net, budget, a) == NodeCall(net, budget, a.dst) + 2
    ensures ArcFrame(net, budget, a) <= FrameWork(|net.arcs|, budget, net.nodes - a.src - 1)
    ensures NodeSend(net, budget, a.src) == budget * FrameWork(|net.arcs|, budget, net.nodes - a.src - 1) + 5
  {
    WorkGrows(|net.arcs|, budget, net.nodes - a.dst, net.nodes - a.src - 1);
  }

  // ---------------------------------------------------------------- routing

  /** What a worker step does to the work at the edge it changes. */
  function ArcChange(net: Net, budget: nat, s: State, f: Effect): int
    requires Shaped(net, s) && (f.changed.Some? ==> f.changed.value < |net.arcs|)
  {
    if f.changed.None? then 0
    else
      var e := f.changed.value;
      ArcWork(net, budget, net.arcs[e], f.edge) - ArcWork(net, budget, net.arcs[e], s.edges[e])
  }

  /** The step lowers the work of the worker and of the edge it changes, taken together. */
  predicate Lowers(net: Net, budget: nat, s: State, n: nat, f: Effect)
    requires Shaped(net, s) && n < net.nodes
  {
    && (f.changed.Some? ==> f.changed.value < |net.arcs|)
    && NodeWork(net, budget, n, f.worker) + ArcChange(net, budget, s, f) < NodeWork(net, budget, n, s.workers[n])
    && BoundedPc(budget, f.worker.pc)
  }

  /** A send on an own edge that takes the sender from one index to the next. */
  lemma SendingLowers(net: Net, budget: nat, s: State, n: nat, k: nat, m: Message, ack: Ack, sent: WorkerPc)
    requires WellFormed(net) && Shaped(net, s) && n < net.nodes && k < |net.arcs| && net.arcs[k].src == n
    requires SendOn(s, s.workers[n], k, m, ack, sent).Some? && (ack == s.edges[k].ack || ack.Outstanding?)
    requires if m.FrameBatch? then |m.frames| <= budget else |m.signals| <= budget
    requires BoundedPc(budget, sent) && Seen(sent).None? && Seen(s.workers[n].pc).None?
    requires var send, call, size := NodeSend(net, budget, n), NodeCall(net, budget, n), |net.arcs|;
             && PcWork(size, send, call, sent) + send <= PcWork(size, send, call, s.workers[n].pc)
             && PcWork(size, send, call, Failing(false)) < PcWork(size, send, call, s.workers[n].pc)
    ensures Lowers(net, budget, s, n, SendOn(s, s.workers[n], k, m, ack, sent).value)
  {
    var a := net.arcs[k];
    assert WellFormedArc(net, a);
    ArcFits(net, budget, a);
    SendLowers(s, s.workers[n], k, m, ack, sent, budget, NodeSend(net, budget, n), ArcFrame(net, budget, a),
               FrameWork(|net.arcs|, budget, net.nodes - n - 1), BumpWork(|net.arcs|), ArcItem(net, budget, a));
  }

  lemma MovingLowers(net: Net, budget: nat, s: State, n: nat, pc: WorkerPc)
    requires WellFormed(net) && Shaped(net, s) && n < net.nodes
    requires BoundedPc(budget, pc) && Seen(pc).None? && Seen(s.workers[n].pc).None?
    requires var send, call, size := NodeSend(net, budget, n), NodeCall(net, budget, n), |net.arcs|;
             PcWork(size, send, call, pc) < PcWork(size, send, call, s.workers[n].pc)
    ensures Lowers(net, budget, s, n, Move(s, s.workers[n], pc).value)
  {
  }

  lemma SignalSendLowers(net: Net, budget: nat, s: State, n: nat, c: Choice)
    requires WellFormed(net) && Shaped(net, s) && n < net.nodes
    requires s.workers[n].pc.SignalSend? && BoundedPc(budget, s.workers[n].pc)
    requires BarrierStep(net, s, n, c).Some?
    ensures Lowers(net, budget, s, n, BarrierStep(net, s, n, c).value)
  {
    var out, k, size := s.workers[n].pc.out, s.workers[n].pc.next, |net.arcs|;
    var send, call := NodeSend(net, budget, n), NodeCall(net, budget, n);
    SignalSendWork(size, send, call, out, k);
    assert send > 0;
    if k >= size {
      MovingLowers(net, budget, s, n, AckWait(out));
    } else if net.arcs[k].src != n {
      MovingLowers(net, budget, s, n, SignalSend(out, k + 1));
    } else {
      SendingLowers(net, budget, s, n, k, SignalBatch(out.signals), Outstanding, SignalSend(out, k + 1));
    }
  }

  /** Taking a buffered acknowledgement is work too. */
  lemma TakingLowers(net: Net, budget: nat, s: State, n: nat, e: nat)
    requires WellFormed(net) && Shaped(net, s) && n < net.nodes && e < |net.arcs|
    requires s.edges[e].ack.Buffered? && BoundedPc(budget, s.workers[n].pc)
    ensures Lowers(net, budget, s, n, MoveEdge(s, s.workers[n], s.workers[n].pc, e, s.edges[e].(ack := Received)).value)
  {
  }

  lemma AckLowers(net: Net, budget: nat, s: State, n: nat, c: Choice)
    requires WellFormed(net) && Shaped(net, s) && n < net.nodes
    requires s.workers[n].pc.AckWait? || s.workers[n].pc.ReasonCheck?
    requires BoundedPc(budget, s.workers[n].pc) && BarrierStep(net, s, n, c).Some?
    ensures Lowers(net, budget, s, n, BarrierStep(net, s, n, c).value)
  {
    var out, size := s.workers[n].pc.out, |net.arcs|;
    AckWork(size, NodeSend(net, budget, n), NodeCall(net, budget, n), out);
    if s.workers[n].pc.ReasonCheck? {
      MovingLowers(net, budget, s, n, if s.ctl.aborted then Failing(false) else TrySend(out, 0, {}));
    } else if c.TakeAck? && c.edge < size && net.arcs[c.edge].src == n && s.edges[c.edge].ack.Buffered? {
      TakingLowers(net, budget, s, n, c.edge);
    } else {
      MovingLowers(net, budget, s, n, if AllReceived(net, s, n) then ReasonCheck(out) else Failing(false));
    }
  }

  lemma TrySendLowers(net: Net, budget: nat, s: State, n: nat)
    requires WellFormed(net) && Shaped(net, s) && n < net.nodes
    requires s.workers[n].pc.TrySend? && BoundedPc(budget, s.workers[n].pc)
    requires FramesStep(net, s, n).Some?
    ensures Lowers(net, budget, s, n, FramesStep(net, s, n).value)
  {
    var out, k, size, pending := s.workers[n].pc.out, s.workers[n].pc.next, |net.arcs|, s.workers[n].pc.pending;
    var send, call := NodeSend(net, budget, n), NodeCall(net, budget, n);
    assert send > 0;
    TrySendWork(size, send, call, out, k, pending, pending);
    if k >= size || k >= |out.batches| {
      MovingLowers(net, budget, s, n, PendingSend(out, 0, pending));
    } else if net.arcs[k].src != n || out.batches[k] == [] {
      MovingLowers(net, budget, s, n, TrySend(out, k + 1, pending));
    } else if ReceiverAlive(s.edges[k].disp) && s.edges[k].chan != [] {
      TrySendWork(size, send, call, out, k, pending, pending + {k});
      MovingLowers(net, budget, s, n, TrySend(out, k + 1, pending + {k}));
    } else {
      SendingLowers(net, budget, s, n, k, FrameBatch(out.batches[k]), s.edges[k].ack, TrySend(out, k + 1, pending));
    }
  }

  lemma ResumeWork(net: Net, budget: nat, n: nat, w: Worker)
    requires WellFormed(net) && n < net.nodes
    ensures PcWork(|net.arcs|, NodeSend(net, budget, n), NodeCall(net, budget, n), Resume(net, n, w))
            <= ObserveWork(|net.arcs|)
    ensures Seen(Resume(net, n, w)).None? && BoundedPc(budget, Resume(net, n, w))
  {
  }

  lemma PendingSendLowers(net: Net, budget: nat, s: State, n: nat)
    requires WellFormed(net) && Shaped(net, s) && n < net.nodes
    requires s.workers[n].pc.PendingSend? && BoundedPc(budget, s.workers[n].pc)
    requires PcFits(net, n, s.workers[n]) && FramesStep(net, s, n).Some?
    ensures Lowers(net, budget, s, n, FramesStep(net, s, n).value)
  {
    var out, k, size, pending := s.workers[n].pc.out, s.workers[n].pc.next, |net.arcs|, s.workers[n].pc.pending;
    var send, call := NodeSend(net, budget, n), NodeCall(net, budget, n);
    assert send > 0;
    PendingSendWork(size, send, call, out, k, pending);
    ResumeWork(net, budget, n, s.workers[n]);
    if k >= size || k >= |out.batches| {
      MovingLowers(net, budget, s, n, Resume(net, n, s.workers[n]));
    } else if k !in pending {
      MovingLowers(net, budget, s, n, PendingSend(out, k + 1, pending));
    } else {
      SendingLowers(net, budget, s, n, k, FrameBatch(out.batches[k]), s.edges[k].ack, PendingSend(out, k + 1, pending));
    }
  }

  // ---------------------------------------------------------------- one step of one thread

  lemma ScanStaysBounded(net: Net, s: State, n: nat, c: Choice, budget: nat)
    requires WellFormed(net) && Shaped(net, s) && n < net.nodes && ScanStep(net, s, n, c).Some?
    ensures BoundedPc(budget, ScanStep(net, s, n, c).value.worker.pc)
  {
  }

  /** At an incoming edge the weights are those of the node's own callbacks. */
  lemma IncomingChange(net: Net, budget: nat, s: State, n: nat, f: Effect)
    requires WellFormed(net) && Shaped(net, s) && n < net.nodes
    requires f.changed.Some? ==> f.changed.value < |net.arcs| && net.arcs[f.changed.value].dst == n
    ensures var call, bump := NodeCall(net, budget, n), BumpWork(|net.arcs|);
            ArcChange(net, budget, s, f) == EdgeChange(s, f, bump, call + 2 + bump + 3, call + 2)
  {
    if f.changed.Some? {
      var a := net.arcs[f.changed.value];
      assert WellFormedArc(net, a);
      ArcFits(net, budget, a);
    }
  }

  lemma ScanningPays(net: Net, budget: nat, s: State, n: nat, c: Choice, f: Effect)
    requires WellFormed(net) && Shaped(net, s) && n < net.nodes
    requires ScanStep(net, s, n, c) == Some(f) && Frugal(budget, c)
    ensures f.changed.Some? ==> f.changed.value < |net.arcs| && net.arcs[f.changed.value].dst == n
    ensures var call, bump := NodeCall(net, budget, n), BumpWork(|net.arcs|);
            NodeWork(net, budget, n, f.worker) + EdgeChange(s, f, bump, call + 2 + bump + 3, call + 2)
            < NodeWork(net, budget, n, s.workers[n])
  {
    var call, bump := NodeCall(net, budget, n), BumpWork(|net.arcs|);
    ScanLowers(net, s, n, c, NodeSend(net, budget, n), call, bump, call + 2 + bump + 3, call + 2);
  }

  lemma ScanningLowers(net: Net, budget: nat, s: State, n: nat, c: Choice, f: Effect)
    requires WellFormed(net) && Shaped(net, s) && n < net.nodes
    requires ScanStep(net, s, n, c) == Some(f) && Frugal(budget, c)
    ensures Lowers(net, budget, s, n, f)
  {
    ScanStaysBounded(net, s, n, c, budget);
    ScanningPays(net, budget, s, n, c, f);
    IncomingChange(net, budget, s, n, f);
  }

  lemma LivingLowers(net: Net, budget: nat, s: State, n: nat, c: Choice)
    requires WellFormed(net) && Shaped(net, s) && n < net.nodes
    requires LifecycleStep(net, s, n, c).Some? && Frugal(budget, c)
    requires LifecycleStep(net, s, n, c).value.changed.None?
    ensures Lowers(net, budget, s, n, LifecycleStep(net, s, n, c).value)
  {
    if s.workers[n].pc.Calling? {
      CallLowers(net, s, n, c, budget, NodeSend(net, budget, n), NodeCall(net, budget, n));
    } else {
      LifecycleLowers(net, s, n, c, budget, NodeSend(net, budget, n), NodeCall(net, budget, n));
    }
  }

  lemma WorkerLowers(net: Net, budget: nat, s: State, n: nat, c: Choice)
    requires WellFormed(net) && Inv(net, s) && n < net.nodes && WorkerEffect(net, s, n, c).Some? && Frugal(budget, c)
    requires BoundedPc(budget, s.workers[n].pc)
    ensures Lowers(net, budget, s, n, WorkerEffect(net, s, n, c).value)
  {
    var pc := s.workers[n].pc;
    assert WorkerOk(net, n, s.workers[n], s.ctl);
    if pc.SignalSend? { SignalSendLowers(net, budget, s, n, c); }
    else if pc.AckWait? || pc.ReasonCheck? { AckLowers(net, budget, s, n, c); }
    else if pc.TrySend? { TrySendLowers(net, budget, s, n); }
    else if pc.PendingSend? { PendingSendLowers(net, budget, s, n); }
    else if IsScanning(pc) { ScanningLowers(net, budget, s, n, c, WorkerEffect(net, s, n, c).value); }
    else {
      LifecycleTouches(net, s, n, c);
      LivingLowers(net, budget, s, n, c);
    }
  }

  lemma DispatcherLowers(net: Net, budget: nat, e: nat, es: Edge, alive: bool, ctl: Control, c: PolicyChoice)
    requires WellFormed(net) && e < |net.arcs| && ShapeOk(net.arcs[e], es, ctl)
    requires DispatcherEffect(net, net.arcs[e], es, alive, ctl, c).Some?
    ensures var f := DispatcherEffect(net, net.arcs[e], es, alive, ctl, c).value;
            ArcWork(net, budget, net.arcs[e], f.edge) + f.bumps * BumpWork(|net.arcs|)
              < ArcWork(net, budget, net.arcs[e], es)
  {
    var a, bump := net.arcs[e], BumpWork(|net.arcs|);
    var frame, item := ArcFrame(net, budget, a), ArcItem(net, budget, a);
    assert WellFormedArc(net, a);
    if es.disp.Signalling? || es.disp.NotifySignal? {
      SignalsLower(net.signalCapacity, es, ctl, c, bump, frame, item);
    } else if es.disp.Pushing? {
      PushLowers(a, es, es.disp.frame, es.disp.batch, ctl, bump, frame, item);
    } else if es.disp.Receiving? || es.disp.Applying? || es.disp.NotifyFrame? {
      FramesLower(a, es, alive, ctl, c, bump, frame, item);
    } else {
      ExitLowers(net.failureMode, es, ctl, bump, frame, item);
    }
  }

  // ---------------------------------------------------------------- the whole runtime

  function NodesWork(net: Net, budget: nat, workers: seq<Worker>, j: nat): nat
    requires j <= |workers| == net.nodes
  {
    if j == 0 then 0 else NodesWork(net, budget, workers, j - 1) + NodeWork(net, budget, j - 1, workers[j - 1])
  }

  function ArcsWork(net: Net, budget: nat, edges: seq<Edge>, j: nat): nat
    requires j <= |edges| == |net.arcs|
  {
    if j == 0 then 0 else ArcsWork(net, budget, edges, j - 1) + ArcWork(net, budget, net.arcs[j - 1], edges[j - 1])
  }

  /** All the work in hand: of every worker, every edge, and the closing sweep. */
  function Work(net: Net, budget: nat, s: State): nat
    requires Shaped(net, s)
  {
    NodesWork(net, budget, s.workers, net.nodes) + ArcsWork(net, budget, s.edges, |net.arcs|)
      + CloserWork(|net.arcs|, s.ctl.closer)
  }

  lemma {:induction false} NodesWorkAfter(net: Net, budget: nat, workers: seq<Worker>, n: nat, w: Worker, j: nat)
    requires j <= |workers| == net.nodes && n < net.nodes
    ensures NodesWork(net, budget, workers[n := w], j) + (if n < j then NodeWork(net, budget, n, workers[n]) else 0)
            == NodesWork(net, budget, workers, j) + (if n < j then NodeWork(net, budget, n, w) else 0)
  {
    if j > 0 { NodesWorkAfter(net, budget, workers, n, w, j - 1); }
  }

  lemma {:induction false} ArcsWorkAfter(net: Net, budget: nat, edges: seq<Edge>, e: nat, es: Edge, j: nat)
    requires j <= |edges| == |net.arcs| && e < |edges|
    ensures ArcsWork(net, budget, edges[e := es], j)
            + (if e < j then ArcWork(net, budget, net.arcs[e], edges[e]) else 0)
            == ArcsWork(net, budget, edges, j) + (if e < j then ArcWork(net, budget, net.arcs[e], es) else 0)
  {
    if j > 0 { ArcsWorkAfter(net, budget, edges, e, es, j - 1); }
  }

  ghost predicate Bounded(budget: nat, s: State) {
    forall n :: 0 <= n < |s.workers| ==> BoundedPc(budget, s.workers[n].pc)
  }

  lemma CloserNeverGrows(size: nat, ctl: Control, ctl': Control, mode: DrainMode)
    requires ControlOk(size, ctl) && (ctl' == ctl || (!ctl.aborted && ctl' == Install(ctl, mode)))
    ensures CloserWork(size, ctl'.closer) <= CloserWork(size, ctl.closer)
  {
    if ctl' != ctl { InstallLowers(size, ctl, mode); }
  }

  lemma WorkerStepLowers(net: Net, budget: nat, s: State, n: nat, c: Choice)
    requires WellFormed(net) && Inv(net, s) && Bounded(budget, s) && n < net.nodes
    requires WorkerEffect(net, s, n, c).Some? && Frugal(budget, c)
    ensures var t := ApplyWorker(s, n, WorkerEffect(net, s, n, c).value);
            Shaped(net, t) && Work(net, budget, t) < Work(net, budget, s) && Bounded(budget, t)
  {
    var f := WorkerEffect(net, s, n, c).value;
    WorkerLowers(net, budget, s, n, c);
    WorkerStaysOk(net, s, n, c);
    CloserNeverGrows(|net.arcs|, s.ctl, f.ctl, net.failureMode);
    NodesWorkAfter(net, budget, s.workers, n, f.worker, net.nodes);
    if f.changed.Some? { ArcsWorkAfter(net, budget, s.edges, f.changed.value, f.edge, |net.arcs|); }
  }

  lemma BumpNodeCosts(net: Net, budget: nat, n: nat, w: Worker, times: nat)
    requires n < net.nodes
    ensures NodeWork(net, budget, n, Bump(w, times)) <= NodeWork(net, budget, n, w) + times * BumpWork(|net.arcs|)
  {
    BumpCosts(|net.arcs|, NodeSend(net, budget, n), NodeCall(net, budget, n), w, times);
    if times > 0 { More(1, times, BumpWork(|net.arcs|)); }
  }

  lemma DispatcherStepLowers(net: Net, budget: nat, s: State, e: nat, c: PolicyChoice)
    requires WellFormed(net) && Inv(net, s) && Bounded(budget, s) && e < |net.arcs|
    requires DispatcherEffect(net, net.arcs[e], s.edges[e], SenderAlive(s.workers[net.arcs[e].src], e), s.ctl, c).Some?
    ensures var f := DispatcherEffect(net, net.arcs[e], s.edges[e], SenderAlive(s.workers[net.arcs[e].src], e),
                                      s.ctl, c).value;
            var t := ApplyDispatcher(s, e, net.arcs[e].dst, f);
            Shaped(net, t) && Work(net, budget, t) < Work(net, budget, s) && Bounded(budget, t)
  {
    var a := net.arcs[e];
    var f := DispatcherEffect(net, a, s.edges[e], SenderAlive(s.workers[a.src], e), s.ctl, c).value;
    assert EdgeHolds(net, s, e) && WellFormedArc(net, a);
    DispatcherLowers(net, budget, e, s.edges[e], SenderAlive(s.workers[a.src], e), s.ctl, c);
    DispatcherKeepsControl(net, s, e, c);
    CloserNeverGrows(|net.arcs|, s.ctl, f.ctl, net.failureMode);
    BumpNodeCosts(net, budget, a.dst, s.workers[a.dst], f.bumps);
    NodesWorkAfter(net, budget, s.workers, a.dst, Bump(s.workers[a.dst], f.bumps), net.nodes);
    ArcsWorkAfter(net, budget, s.edges, e, f.edge, |net.arcs|);
  }

  lemma BumpNone(w: Worker)
    ensures Bump(w, 0) == w
  {
  }

  /** The sweep notifies one worker at most. */
  lemma SweepWorkers(net: Net, s: State)
    requires WellFormed(net) && Shaped(net, s)
    ensures var c := s.ctl.closer;
            ApplySweep(net, s).workers ==
            if Waking(|net.arcs|, c) then s.workers[net.arcs[c.k].dst := Bump(s.workers[net.arcs[c.k].dst], 1)]
            else s.workers
  {
    var c := s.ctl.closer;
    var t := ApplySweep(net, s);
    if Waking(|net.arcs|, c) { assert WellFormedArc(net, net.arcs[c.k]); }
    forall n: nat | n < |s.workers|
      ensures t.workers[n] ==
              if Waking(|net.arcs|, c) && n == net.arcs[c.k].dst then Bump(s.workers[n], 1) else s.workers[n]
    {
      BumpNone(s.workers[n]);
    }
  }

  predicate Touching(size: nat, c: Closer) {
    (c.CloseQueue? || c.WakeQueue? || c.CloseSignals?) && c.k < size
  }

  /** And changes one edge at most. */
  lemma SweepEdges(net: Net, s: State)
    requires WellFormed(net) && Shaped(net, s)
    ensures var c := s.ctl.closer;
            ApplySweep(net, s).edges ==
            if Touching(|net.arcs|, c) then s.edges[c.k := SweepEdge(s.ctl, c.k, s.edges[c.k])] else s.edges
  {
    var c := s.ctl.closer;
    var t := ApplySweep(net, s);
    forall e: nat | e < |s.edges|
      ensures t.edges[e] == if Touching(|net.arcs|, c) && e == c.k then SweepEdge(s.ctl, e, s.edges[e]) else s.edges[e]
    {
    }
  }

  lemma SweepNodesCost(net: Net, budget: nat, s: State)
    requires WellFormed(net) && Shaped(net, s)
    ensures var t := ApplySweep(net, s);
            |t.workers| == net.nodes
            && NodesWork(net, budget, t.workers, net.nodes) <= NodesWork(net, budget, s.workers, net.nodes)
                 + (if Waking(|net.arcs|, s.ctl.closer) then BumpWork(|net.arcs|) else 0)
  {
    SweepWorkers(net, s);
    var c := s.ctl.closer;
    if Waking(|net.arcs|, c) {
      var d := net.arcs[c.k].dst;
      assert WellFormedArc(net, net.arcs[c.k]);
      BumpNodeCosts(net, budget, d, s.workers[d], 1);
      NodesWorkAfter(net, budget, s.workers, d, Bump(s.workers[d], 1), net.nodes);
    }
  }

  lemma SweepArcsCost(net: Net, budget: nat, s: State)
    requires WellFormed(net) && Shaped(net, s)
    ensures var t := ApplySweep(net, s);
            |t.edges| == |net.arcs|
            && ArcsWork(net, budget, t.edges, |net.arcs|) <= ArcsWork(net, budget, s.edges, |net.arcs|)
                 + (if Waking(|net.arcs|, s.ctl.closer) then 1 else 0)
  {
    SweepEdges(net, s);
    var c := s.ctl.closer;
    if Touching(|net.arcs|, c) {
      var a, es := net.arcs[c.k], s.edges[c.k];
      SweepEdgeCosts(s.ctl, c.k, es, BumpWork(|net.arcs|), ArcFrame(net, budget, a), ArcItem(net, budget, a));
      ArcsWorkAfter(net, budget, s.edges, c.k, SweepEdge(s.ctl, c.k, es), |net.arcs|);
    }
  }

  lemma SweepStepLowers(net: Net, budget: nat, s: State)
    requires WellFormed(net) && Inv(net, s) && Bounded(budget, s) && !s.ctl.closer.Idle? && !s.ctl.closer.Done?
    ensures var t := ApplySweep(net, s);
            Shaped(net, t) && Work(net, budget, t) < Work(net, budget, s) && Bounded(budget, t)
  {
    SweepNodesCost(net, budget, s);
    SweepArcsCost(net, budget, s);
    SweepLowers(|net.arcs|, s.ctl);
  }

  // ---------------------------------------------------------------- coming to rest

  /**
   A step of one of the runtime's own threads: no timer expires, nobody stops it from
   outside, callbacks keep their budget.
   */
  predicate Own(budget: nat, a: Action) {
    a.DispatcherAct? || a.SweepAct? || (a.WorkerAct? && Frugal(budget, a.choice))
  }

  lemma OwnStepLowers(net: Net, budget: nat, s: State, a: Action)
    requires WellFormed(net) && Inv(net, s) && Bounded(budget, s) && Own(budget, a) && Step(net, s, a).Some?
    ensures var t := Step(net, s, a).value;
            Shaped(net, t) && Work(net, budget, t) < Work(net, budget, s) && Bounded(budget, t)
  {
    match a
    case WorkerAct(n, c) => WorkerStepLowers(net, budget, s, n, c);
    case DispatcherAct(e, c) => DispatcherStepLowers(net, budget, s, e, c);
    case SweepAct => SweepStepLowers(net, budget, s);
  }

  ghost predicate OwnFollows(net: Net, budget: nat, s: State, t: State)
    requires WellFormed(net)
  {
    Shaped(net, s) && exists a :: Own(budget, a) && Step(net, s, a) == Some(t)
  }

  /** From state j on the run consists of own steps only. */
  ghost predicate OwnFrom(net: Net, budget: nat, run: seq<State>, j: nat)
    requires WellFormed(net)
  {
    forall i: nat {:trigger OwnAt(net, budget, run, i)} :: j < i < |run| ==> OwnAt(net, budget, run, i)
  }

  ghost predicate OwnAt(net: Net, budget: nat, run: seq<State>, i: nat)
    requires WellFormed(net) && 0 < i < |run|
  {
    OwnFollows(net, budget, run[i - 1], run[i])
  }

  lemma OwnFollowsLowers(net: Net, budget: nat, s: State, t: State)
    requires WellFormed(net) && Inv(net, s) && Bounded(budget, s) && OwnFollows(net, budget, s, t)
    ensures Shaped(net, t) && Work(net, budget, t) < Work(net, budget, s) && Bounded(budget, t)
  {
    var a :| Own(budget, a) && Step(net, s, a) == Some(t);
    OwnStepLowers(net, budget, s, a);
  }

  /**
   The runtime's threads cannot go on for ever by themselves: from any reachable state, aborted
   or not, at most `Work` many own steps are possible before a timer expires or a stop comes
   from outside, whatever the callbacks emit within their budget and however threads interleave.
   */
  lemma {:induction false} OwnStepsAreBounded(net: Net, budget: nat, run: seq<State>, j: nat, i: nat)
    requires WellFormed(net) && IsRun(net, run) && j <= i < |run| && OwnFrom(net, budget, run, j)
    requires Shaped(net, run[j]) && Bounded(budget, run[j])
    ensures Shaped(net, run[i]) && Bounded(budget, run[i])
    ensures i - j + Work(net, budget, run[i]) <= Work(net, budget, run[j])
    decreases i - j
  {
    if j < i {
      OwnStepsAreBounded(net, budget, run, j, i - 1);
      OwnAtLowers(net, budget, run, i);
    }
  }

  lemma OwnAtLowers(net: Net, budget: nat, run: seq<State>, i: nat)
    requires WellFormed(net) && IsRun(net, run) && 0 < i < |run| && OwnAt(net, budget, run, i)
    requires Shaped(net, run[i - 1]) && Bounded(budget, run[i - 1])
    ensures Shaped(net, run[i]) && Work(net, budget, run[i]) < Work(net, budget, run[i - 1]) && Bounded(budget, run[i])
  {
    RunKeepsInv(net, run, i - 1);
    OwnFollowsLowers(net, budget, run[i - 1], run[i]);
  }

  /** Whatever a thread could do by itself, it can also do within the budget. */
  lemma OwnInstead(net: Net, s: State, n: nat, c: Choice)
    requires WellFormed(net) && Shaped(net, s) && n < net.nodes && c.Returns? && WorkerEffect(net, s, n, c).Some?
    ensures WorkerEffect(net, s, n, Proceed).Some?
  {
  }

  lemma MoveIsOwn(net: Net, budget: nat, s: State) returns (t: State)
    requires WellFormed(net) && Shaped(net, s) && CanMove(net, s)
    ensures OwnFollows(net, budget, s, t)
  {
    var a :| Internal(a) && Step(net, s, a).Some?;
    var b := a;
    if a.WorkerAct? && a.choice.Returns? {
      OwnInstead(net, s, a.n, a.choice);
      b := WorkerAct(a.n, Proceed);
    }
    assert Own(budget, b);
    t := Step(net, s, b).value;
  }

  lemma OwnStepProlongs(net: Net, budget: nat, run: seq<State>, j: nat, t: State)
    requires WellFormed(net) && IsRun(net, run) && j < |run| && OwnFrom(net, budget, run, j)
    requires OwnFollows(net, budget, run[|run| - 1], t)
    ensures IsRun(net, run + [t]) && OwnFrom(net, budget, run + [t], j)
  {
    var all := run + [t];
    forall i: nat | 0 < i < |all| ensures Linked(net, all, i) {
      if i < |run| { assert Linked(net, run, i); }
    }
    forall i: nat | j < i < |all| ensures OwnAt(net, budget, all, i) {
      if i < |run| { assert OwnAt(net, budget, run, i); }
    }
  }

  /**
   From every reachable state the runtime comes to rest by its own steps, within the measure:
   then every thread has exited, or all that is left is to wait for a tick timer.
   */
  lemma {:induction false} ComesToRest(net: Net, budget: nat, run: seq<State>, j: nat) returns (longer: seq<State>)
    requires WellFormed(net) && IsRun(net, run) && j < |run| && OwnFrom(net, budget, run, j)
    requires Shaped(net, run[|run| - 1]) && Bounded(budget, run[|run| - 1])
    ensures run <= longer && IsRun(net, longer) && OwnFrom(net, budget, longer, j)
    ensures |longer| - |run| <= Work(net, budget, run[|run| - 1])
    ensures var s := longer[|longer| - 1];
            Shaped(net, s) && !CanMove(net, s) && (AllExited(s) || TimerPending(s))
    decreases Work(net, budget, run[|run| - 1])
  {
    DeadlockFree(net, run, |run| - 1);
    if CanMove(net, run[|run| - 1]) {
      var next := OneMoreOwnStep(net, budget, run, j);
      longer := ComesToRest(net, budget, next, j);
    } else {
      longer := run;
    }
  }

  lemma OwnStepAtEnd(net: Net, budget: nat, run: seq<State>) returns (t: State)
    requires WellFormed(net) && IsRun(net, run)
    requires Shaped(net, run[|run| - 1]) && Bounded(budget, run[|run| - 1]) && CanMove(net, run[|run| - 1])
    ensures OwnFollows(net, budget, run[|run| - 1], t) && Shaped(net, t) && Bounded(budget, t)
    ensures Work(net, budget, t) < Work(net, budget, run[|run| - 1])
  {
    t := MoveIsOwn(net, budget, run[|run| - 1]);
    RunKeepsInv(net, run, |run| - 1);
    OwnFollowsLowers(net, budget, run[|run| - 1], t);
  }

  lemma OneMoreOwnStep(net: Net, budget: nat, run: seq<State>, j: nat) returns (next: seq<State>)
    requires WellFormed(net) && IsRun(net, run) && j < |run| && OwnFrom(net, budget, run, j)
    requires Shaped(net, run[|run| - 1]) && Bounded(budget, run[|run| - 1]) && CanMove(net, run[|run| - 1])
    ensures |next| == |run| + 1 && run <= next && IsRun(net, next) && OwnFrom(net, budget, next, j)
    ensures Shaped(net, next[|run|]) && Bounded(budget, next[|run|])
    ensures Work(net, budget, next[|run|]) < Work(net, budget, run[|run| - 1])
  {
    var t := OwnStepAtEnd(net, budget, run);
    OwnStepProlongs(net, budget, run, j, t);
    next := run + [t];
  }

  // ---------------------------------------------------------------- after an abort

  predicate FeedsInto(net: Net, e: nat, n: nat) {
    e < |net.arcs| && net.arcs[e].dst == n
  }

  /** A consumer without any incoming edge. */
  ghost predicate Unfed(net: Net, n: nat)
    requires WellFormed(net) && n < net.nodes
  {
    !net.source[n] && forall e: nat {:trigger FeedsInto(net, e, n)} :: !FeedsInto(net, e, n)
  }

  /** It is never called back, so it never asks for a tick. */
  predicate Untouched(w: Worker) {
    !w.tick && !w.pc.Calling?
  }

  ghost predicate UnfedAt(net: Net, s: State, n: nat)
    requires WellFormed(net) && Shaped(net, s) && n < net.nodes
  {
    Unfed(net, n) ==> Untouched(s.workers[n])
  }

  ghost predicate UnfedOk(net: Net, s: State)
    requires WellFormed(net) && Shaped(net, s)
  {
    forall n: nat {:trigger UnfedAt(net, s, n)} :: n < net.nodes ==> UnfedAt(net, s, n)
  }

  lemma ScanKeepsUntouched(net: Net, s: State, n: nat, c: Choice)
    requires WellFormed(net) && Shaped(net, s) && n < net.nodes && Unfed(net, n) && Untouched(s.workers[n])
    requires ScanStep(net, s, n, c).Some?
    ensures Untouched(ScanStep(net, s, n, c).value.worker)
  {
    if ScanStep(net, s, n, c).value.changed.Some? {
      ScanPops(net, s, n, c);
      assert FeedsInto(net, ScanStep(net, s, n, c).value.changed.value, n);
    }
  }

  lemma LifecycleKeepsUntouched(net: Net, s: State, n: nat, c: Choice)
    requires WellFormed(net) && Shaped(net, s) && n < net.nodes && !net.source[n] && Untouched(s.workers[n])
    requires PcFits(net, n, s.workers[n]) && LifecycleStep(net, s, n, c).Some?
    ensures Untouched(LifecycleStep(net, s, n, c).value.worker)
  {
  }

  lemma WorkerKeepsUntouched(net: Net, s: State, n: nat, c: Choice)
    requires WellFormed(net) && Inv(net, s) && n < net.nodes && Unfed(net, n) && Untouched(s.workers[n])
    requires WorkerEffect(net, s, n, c).Some?
    ensures Untouched(WorkerEffect(net, s, n, c).value.worker)
  {
    var pc := s.workers[n].pc;
    assert WorkerOk(net, n, s.workers[n], s.ctl);
    if pc.TrySend? || pc.PendingSend? { FramesMoves(net, s, n); }
    else if IsRouting(pc) { BarrierMoves(net, s, n, c); }
    else if IsScanning(pc) { ScanKeepsUntouched(net, s, n, c); }
    else { LifecycleKeepsUntouched(net, s, n, c); }
  }

  lemma WorkerKeepsUnfed(net: Net, s: State, n: nat, c: Choice)
    requires WellFormed(net) && Inv(net, s) && UnfedOk(net, s) && n < net.nodes && WorkerEffect(net, s, n, c).Some?
    ensures Shaped(net, ApplyWorker(s, n, WorkerEffect(net, s, n, c).value))
    ensures UnfedOk(net, ApplyWorker(s, n, WorkerEffect(net, s, n, c).value))
  {
    var t := ApplyWorker(s, n, WorkerEffect(net, s, n, c).value);
    forall m: nat | m < net.nodes ensures UnfedAt(net, t, m) {
      assert UnfedAt(net, s, m);
      if m == n && Unfed(net, n) { WorkerKeepsUntouched(net, s, n, c); }
    }
  }

  /** Notifications, stops and sweeps leave ticks and positions alone. */
  lemma BumpsKeepUnfed(net: Net, s: State, t: State)
    requires WellFormed(net) && Shaped(net, s) && Shaped(net, t) && UnfedOk(net, s)
    requires forall n: nat :: n < net.nodes ==>
               t.workers[n].tick == s.workers[n].tick && t.workers[n].pc == s.workers[n].pc
    ensures UnfedOk(net, t)
  {
    forall n: nat | n < net.nodes ensures UnfedAt(net, t, n) { assert UnfedAt(net, s, n); }
  }

  lemma StepKeepsUnfed(net: Net, s: State, a: Action)
    requires WellFormed(net) && Inv(net, s) && UnfedOk(net, s) && Step(net, s, a).Some?
    ensures Shaped(net, Step(net, s, a).value) && UnfedOk(net, Step(net, s, a).value)
  {
    match a
    case WorkerAct(n, c) => WorkerKeepsUnfed(net, s, n, c);
    case _ => BumpsKeepUnfed(net, s, Step(net, s, a).value);
  }

  lemma FollowsKeepsUnfed(net: Net, s: State, t: State)
    requires WellFormed(net) && Inv(net, s) && UnfedOk(net, s) && Follows(net, s, t)
    ensures Shaped(net, t) && UnfedOk(net, t)
  {
    var a :| Step(net, s, a) == Some(t);
    StepKeepsUnfed(net, s, a);
  }

  lemma {:induction false} UnfedNeverTick(net: Net, run: seq<State>, i: nat)
    requires WellFormed(net) && IsRun(net, run) && i < |run|
    ensures Shaped(net, run[i]) && UnfedOk(net, run[i])
  {
    if i > 0 {
      UnfedNeverTick(net, run, i - 1);
      RunKeepsInv(net, run, i - 1);
      assert Linked(net, run, i);
      FollowsKeepsUnfed(net, run[i - 1], run[i]);
    } else {
      assert forall n: nat :: n < net.nodes ==> UnfedAt(net, run[0], n);
    }
  }

  /** Once the sweep of an abort is done, a consumer with an incoming edge is woken from its park, timer or not. */
  lemma NobodyParksAfterAbort(net: Net, s: State, n: nat, e: nat)
    requires WellFormed(net) && Inv(net, s) && !CanMove(net, s)
    requires s.ctl.aborted && n < net.nodes && FeedsInto(net, e, n)
    ensures !s.workers[n].pc.Parked?
  {
    SweepAtRest(net, s);
    NoStep(net, s, WorkerAct(n, Proceed));
    assert WorkerOk(net, n, s.workers[n], s.ctl) && EdgeHolds(net, s, e);
    if s.workers[n].pc.Parked? && s.workers[n].pc.open < |net.arcs| {
      var open := s.workers[n].pc.open;
      assert EdgeHolds(net, s, open);
      NoStep(net, s, DispatcherAct(open, PolicyDrop));
    }
  }

  lemma NobodyTicksAfterAbort(net: Net, s: State, n: nat)
    requires WellFormed(net) && Inv(net, s) && !CanMove(net, s) && s.ctl.aborted && n < net.nodes
    ensures !s.workers[n].pc.Ticking?
  {
    SweepAtRest(net, s);
    NoStep(net, s, WorkerAct(n, Proceed));
  }

  /** A consumer without inputs finds them all closed and leaves without ever parking. */
  lemma UnfedNeverPark(net: Net, s: State, n: nat)
    requires WellFormed(net) && Inv(net, s) && n < net.nodes && UnfedAt(net, s, n) && Unfed(net, n)
    ensures !s.workers[n].pc.Parked?
  {
    assert WorkerOk(net, n, s.workers[n], s.ctl);
    assert forall e: nat {:trigger FeedsInto(net, e, n)} :: !FeedsInto(net, e, n);
    assert s.workers[n].pc.Parked? ==> FeedsInto(net, s.workers[n].pc.open, n);
  }

  lemma NoTimerAfterAbort(net: Net, s: State)
    requires WellFormed(net) && Inv(net, s) && UnfedOk(net, s) && !CanMove(net, s) && s.ctl.aborted
    ensures !TimerPending(s)
  {
    forall n: nat | n < net.nodes ensures !s.workers[n].pc.Ticking? && !s.workers[n].pc.Parked? {
      NobodyTicksAfterAbort(net, s, n);
      assert WorkerOk(net, n, s.workers[n], s.ctl) && UnfedAt(net, s, n);
      if !net.source[n] {
        if Unfed(net, n) {
          UnfedNeverPark(net, s, n);
        } else {
          var e: nat :| FeedsInto(net, e, n);
          NobodyParksAfterAbort(net, s, n, e);
        }
      }
    }
  }

  /** After an abort the runtime rests only when every worker and every dispatcher has exited. */
  lemma RestAfterAbortIsExit(net: Net, run: seq<State>, i: nat)
    requires WellFormed(net) && IsRun(net, run) && i < |run|
    requires run[i].ctl.aborted && Shaped(net, run[i]) && !CanMove(net, run[i])
    ensures AllExited(run[i])
  {
    RunKeepsInv(net, run, i);
    UnfedNeverTick(net, run, i);
    NoTimerAfterAbort(net, run[i]);
    DeadlockFree(net, run, i);
  }

  lemma StepKeepsAbort(net: Net, s: State, a: Action)
    requires WellFormed(net) && Inv(net, s) && s.ctl.aborted && Step(net, s, a).Some?
    ensures Step(net, s, a).value.ctl.aborted
  {
    match a
    case WorkerAct(n, c) => WorkerStaysOk(net, s, n, c);
    case DispatcherAct(e, c) => DispatcherKeepsControl(net, s, e, c);
    case SweepAct =>
    case StopAct =>
  }

  lemma FollowsKeepsAbort(net: Net, s: State, t: State)
    requires WellFormed(net) && Inv(net, s) && s.ctl.aborted && Follows(net, s, t)
    ensures t.ctl.aborted
  {
    var a :| Step(net, s, a) == Some(t);
    StepKeepsAbort(net, s, a);
  }

  lemma LinkedKeepsAbort(net: Net, run: seq<State>, i: nat)
    requires WellFormed(net) && IsRun(net, run) && 0 < i < |run| && run[i - 1].ctl.aborted
    ensures run[i].ctl.aborted
  {
    RunKeepsInv(net, run, i - 1);
    assert Linked(net, run, i);
    FollowsKeepsAbort(net, run[i - 1], run[i]);
  }

  lemma {:induction false} AbortStays(net: Net, run: seq<State>, j: nat, i: nat)
    requires WellFormed(net) && IsRun(net, run) && j <= i < |run| && run[j].ctl.aborted
    ensures run[i].ctl.aborted
    decreases i - j
  {
    if j < i {
      AbortStays(net, run, j, i - 1);
      LinkedKeepsAbort(net, run, i);
    }
  }

  /**
   An abort always ends: from the moment it is installed, and without any timer having to
   expire, the threads' own steps bring every worker and dispatcher to its exit, within the
   measure of that moment; by `OwnStepsAreBounded` no choice of own steps can avoid it.
   */
  lemma AbortEnds(net: Net, budget: nat, run: seq<State>) returns (longer: seq<State>)
    requires WellFormed(net) && IsRun(net, run)
    requires run[|run| - 1].ctl.aborted && Shaped(net, run[|run| - 1]) && Bounded(budget, run[|run| - 1])
    ensures run <= longer && IsRun(net, longer) && OwnFrom(net, budget, longer, |run| - 1)
    ensures |longer| - |run| <= Work(net, budget, run[|run| - 1]) && AllExited(longer[|longer| - 1])
  {
    longer := ComesToRest(net, budget, run, |run| - 1);
    AbortStays(net, longer, |run| - 1, |longer| - 1);
    RestAfterAbortIsExit(net, longer, |longer| - 1);
  }
}
