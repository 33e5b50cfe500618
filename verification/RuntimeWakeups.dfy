/** Every change a consumer waits for is announced to it, edge by edge and along every run. */
module RuntimeWakeups {
  import opened Optional
  import opened QueuePolicies
  import opened RuntimeModel
  import opened RuntimeInvariant
  import opened RuntimeSteps

  /** Nothing a consumer could wait for has happened to the edge: no close, no frame entered, no signal accepted. */
  predicate Same(es: Edge, after: Edge) {
    && after.queueClosed == es.queueClosed && after.signalsClosed == es.signalsClosed
    && after.entered == es.entered && after.accepted == es.accepted
  }

  /** The target's generation moved, or a notification is pending, or nothing happened and nothing was pending. */
  predicate Told(e: nat, es: Edge, after: Edge, ctl: Control, ctlAfter: Control, bumps: nat) {
    bumps > 0 || NotifyPending(e, after, ctlAfter) || (!NotifyPending(e, es, ctl) && Same(es, after))
  }

  /** The generation of `w` only grows, and tells of every change of edge `e`. */
  predicate ToldWorker(e: nat, es: Edge, after: Edge, ctl: Control, ctlAfter: Control, w: Worker, w': Worker) {
    w'.wakeups >= w.wakeups && Told(e, es, after, ctl, ctlAfter, w'.wakeups - w.wakeups)
  }

  // ---------------------------------------------------------------- steps

  lemma FramesTell(size: nat, a: Arc, e: nat, es: Edge, alive: bool, ctl: Control, c: PolicyChoice)
    requires ControlOk(size, ctl) && FrameEffect(a, es, alive, ctl, c).Some?
    ensures var f := FrameEffect(a, es, alive, ctl, c).value; Told(e, es, f.edge, ctl, f.ctl, f.bumps)
  {
  }

  lemma SignalsTell(size: nat, capacity: nat, e: nat, es: Edge, ctl: Control, c: PolicyChoice)
    requires ControlOk(size, ctl) && SignalEffect(capacity, es, ctl, c).Some?
    ensures var f := SignalEffect(capacity, es, ctl, c).value; Told(e, es, f.edge, ctl, f.ctl, f.bumps)
  {
  }

  lemma ExitTells(size: nat, mode: DrainMode, e: nat, es: Edge, ctl: Control)
    requires ControlOk(size, ctl) && ExitEffect(mode, es, ctl).Some?
    ensures var f := ExitEffect(mode, es, ctl).value; Told(e, es, f.edge, ctl, f.ctl, f.bumps)
  {
  }

  lemma DispatcherTells(net: Net, e: nat, es: Edge, alive: bool, ctl: Control, c: PolicyChoice)
    requires e < |net.arcs| && ControlOk(|net.arcs|, ctl) && DispatcherEffect(net, net.arcs[e], es, alive, ctl, c).Some?
    ensures var f := DispatcherEffect(net, net.arcs[e], es, alive, ctl, c).value;
            Told(e, es, f.edge, ctl, f.ctl, f.bumps)
  {
    if es.disp.Signalling? || es.disp.NotifySignal? {
      SignalsTell(|net.arcs|, net.signalCapacity, e, es, ctl, c);
    } else if es.disp.Receiving? || es.disp.Applying? || es.disp.Pushing? || es.disp.NotifyFrame? {
      FramesTell(|net.arcs|, net.arcs[e], e, es, alive, ctl, c);
    } else {
      ExitTells(|net.arcs|, net.failureMode, e, es, ctl);
    }
  }

  lemma SweepTells(net: Net, e: nat, es: Edge, ctl: Control)
    requires e < |net.arcs| && ControlOk(|net.arcs|, ctl)
    ensures Told(e, es, SweepEdge(ctl, e, es), ctl, SweepNext(|net.arcs|, ctl),
                 if SweepWakes(net, ctl, net.arcs[e].dst) then 1 else 0)
  {
  }

  /** A step that leaves the edge's dispatcher position alone tells nothing and hides nothing. */
  lemma QuietTells(size: nat, e: nat, es: Edge, after: Edge, ctl: Control, ctlAfter: Control, mode: DrainMode)
    requires ControlOk(size, ctl) && Same(es, after) && (after.disp == es.disp || after.disp == Wake(es.disp))
    requires ctlAfter == ctl || (!ctl.aborted && ctlAfter == Install(ctl, mode))
    ensures Told(e, es, after, ctl, ctlAfter, 0)
  {
  }

  lemma ScanKeepsGeneration(net: Net, s: State, n: nat, c: Choice)
    requires Ready(net, s) && n < net.nodes && ScanStep(net, s, n, c).Some?
    ensures ScanStep(net, s, n, c).value.worker.wakeups == s.workers[n].wakeups
  {
  }

  lemma LifecycleKeepsGeneration(net: Net, s: State, n: nat, c: Choice)
    requires Ready(net, s) && n < net.nodes && LifecycleStep(net, s, n, c).Some?
    ensures LifecycleStep(net, s, n, c).value.worker.wakeups == s.workers[n].wakeups
  {
  }

  lemma WorkerTells(net: Net, s: State, n: nat, c: Choice, e: nat)
    requires WellFormed(net) && Inv(net, s) && n < net.nodes && e < |net.arcs| && WorkerEffect(net, s, n, c).Some?
    ensures var f := WorkerEffect(net, s, n, c).value;
            f.worker.wakeups == s.workers[n].wakeups && Told(e, s.edges[e], EdgeAfter(s, f, e), s.ctl, f.ctl, 0)
  {
    var f, pc := WorkerEffect(net, s, n, c).value, s.workers[n].pc;
    assert EdgeHolds(net, s, e) && WorkerOk(net, n, s.workers[n], s.ctl);
    WorkerStaysOk(net, s, n, c);
    if IsRouting(pc) {
      RouteFactsHold(net, s, n, c, e);
    } else if IsScanning(pc) {
      ScanTouches(net, s, n, c, e);
      ScanKeepsGeneration(net, s, n, c);
    } else {
      LifecycleTouches(net, s, n, c);
      LifecycleKeepsGeneration(net, s, n, c);
    }
    QuietTells(|net.arcs|, e, s.edges[e], EdgeAfter(s, f, e), s.ctl, f.ctl, net.failureMode);
  }

  ghost predicate ToldAt(net: Net, s: State, t: State, e: nat)
    requires WellFormed(net) && Shaped(net, s) && Shaped(net, t) && e < |net.arcs|
  {
    ToldWorker(e, s.edges[e], t.edges[e], s.ctl, t.ctl, s.workers[net.arcs[e].dst], t.workers[net.arcs[e].dst])
  }

  lemma WorkerStepTells(net: Net, s: State, n: nat, c: Choice, e: nat)
    requires WellFormed(net) && Inv(net, s) && n < net.nodes && e < |net.arcs| && WorkerEffect(net, s, n, c).Some?
    ensures ToldAt(net, s, ApplyWorker(s, n, WorkerEffect(net, s, n, c).value), e)
  {
    WorkerTells(net, s, n, c, e);
  }

  lemma DispatcherStepTells(net: Net, s: State, k: nat, c: PolicyChoice, e: nat)
    requires WellFormed(net) && Inv(net, s) && k < |net.arcs| && e < |net.arcs|
    requires DispatcherEffect(net, net.arcs[k], s.edges[k], SenderAlive(s.workers[net.arcs[k].src], k), s.ctl, c).Some?
    ensures var f := DispatcherEffect(net, net.arcs[k], s.edges[k], SenderAlive(s.workers[net.arcs[k].src], k),
                                      s.ctl, c).value;
            ToldAt(net, s, ApplyDispatcher(s, k, net.arcs[k].dst, f), e)
  {
    var alive := SenderAlive(s.workers[net.arcs[k].src], k);
    var f := DispatcherEffect(net, net.arcs[k], s.edges[k], alive, s.ctl, c).value;
    DispatcherKeepsControl(net, s, k, c);
    if k == e {
      DispatcherTells(net, e, s.edges[e], alive, s.ctl, c);
    } else {
      QuietTells(|net.arcs|, e, s.edges[e], s.edges[e], s.ctl, f.ctl, net.failureMode);
    }
  }

  lemma SweepStepTells(net: Net, s: State, e: nat)
    requires WellFormed(net) && Inv(net, s) && e < |net.arcs|
    ensures ToldAt(net, s, ApplySweep(net, s), e)
  {
    SweepTells(net, e, s.edges[e], s.ctl);
  }

  lemma StepTells(net: Net, s: State, a: Action, e: nat)
    requires WellFormed(net) && Inv(net, s) && Step(net, s, a).Some? && e < |net.arcs|
    ensures Shaped(net, Step(net, s, a).value) && ToldAt(net, s, Step(net, s, a).value, e)
  {
    match a
    case WorkerAct(n, c) => WorkerStepTells(net, s, n, c, e);
    case DispatcherAct(k, c) => DispatcherStepTells(net, s, k, c, e);
    case SweepAct => SweepStepTells(net, s, e);
    case StopAct => QuietTells(|net.arcs|, e, s.edges[e], s.edges[e], s.ctl, Install(s.ctl, net.shutdownMode),
                               net.shutdownMode);
  }

  // ---------------------------------------------------------------- runs

  lemma FollowsTells(net: Net, s: State, t: State, e: nat)
    requires WellFormed(net) && Inv(net, s) && Follows(net, s, t) && e < |net.arcs|
    ensures Shaped(net, t) && ToldAt(net, s, t, e)
  {
    var a :| Step(net, s, a) == Some(t);
    StepTells(net, s, a, e);
  }

  /** Between two states the generation only grew, and if it did not, every change is still to be announced. */
  ghost predicate Since(net: Net, s: State, t: State, e: nat)
    requires WellFormed(net) && Shaped(net, s) && Shaped(net, t) && e < |net.arcs|
  {
    var d := net.arcs[e].dst;
    && s.workers[d].wakeups <= t.workers[d].wakeups
    && (s.workers[d].wakeups == t.workers[d].wakeups ==>
        NotifyPending(e, t.edges[e], t.ctl) || Same(s.edges[e], t.edges[e]))
  }

  lemma SinceNext(net: Net, s: State, t: State, u: State, e: nat)
    requires WellFormed(net) && Shaped(net, s) && Shaped(net, t) && Shaped(net, u) && e < |net.arcs|
    requires Since(net, s, t, e) && ToldAt(net, t, u, e)
    ensures Since(net, s, u, e)
  {
  }

  lemma NextTells(net: Net, run: seq<State>, i: nat, e: nat)
    requires WellFormed(net) && IsRun(net, run) && 0 < i < |run| && e < |net.arcs|
    ensures Shaped(net, run[i - 1]) && Shaped(net, run[i]) && ToldAt(net, run[i - 1], run[i], e)
  {
    RunKeepsInv(net, run, i - 1);
    assert Linked(net, run, i);
    FollowsTells(net, run[i - 1], run[i], e);
  }

  lemma {:induction false} RunTells(net: Net, run: seq<State>, j: nat, i: nat, e: nat)
    requires WellFormed(net) && IsRun(net, run) && j <= i < |run| && e < |net.arcs|
    requires Shaped(net, run[j])
    ensures Shaped(net, run[i]) && Since(net, run[j], run[i], e)
    decreases i - j
  {
    if j < i {
      RunTells(net, run, j, i - 1, e);
      NextTells(net, run, i, e);
      SinceNext(net, run[j], run[i - 1], run[i], e);
    }
  }

  /**
   No lost wake-up, queue by queue and for every kind of change: if a consumer is still on the
   generation it had in state j, and since then a frame or signal has entered one of its
   incoming queues or one of them has been closed, a notification for that very edge is
   pending, whether the consumer is parked or not and whether it has a timer or not.
   */
  lemma ChangesAreAnnounced(net: Net, run: seq<State>, j: nat, i: nat, e: nat)
    requires WellFormed(net) && IsRun(net, run) && j <= i < |run| && e < |net.arcs|
    requires Shaped(net, run[j]) && Shaped(net, run[i])
    requires run[i].workers[net.arcs[e].dst].wakeups == run[j].workers[net.arcs[e].dst].wakeups
    requires || (run[i].edges[e].queueClosed && !run[j].edges[e].queueClosed)
             || (run[i].edges[e].signalsClosed && !run[j].edges[e].signalsClosed)
             || run[i].edges[e].entered != run[j].edges[e].entered
             || run[i].edges[e].accepted != run[j].edges[e].accepted
    ensures NotifyPending(e, run[i].edges[e], run[i].ctl)
  {
    RunTells(net, run, j, i, e);
  }
}
