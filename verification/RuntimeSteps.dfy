/** Every step of the concurrent runtime keeps the invariant. */
module RuntimeSteps {
  import opened QueuePolicies
  import opened Optional
  import opened RuntimeModel
  import opened RuntimeInvariant

  // ---------------------------------------------------------------- control changes seen by an edge

  lemma AbortKeepsEdge(net: Net, e: nat, es: Edge, sw: Worker, dw: Worker, ctl: Control, mode: DrainMode)
    requires e < |net.arcs| && EdgeOk(net, e, es, sw, dw, ctl) && ControlOk(|net.arcs|, ctl) && !ctl.aborted
    ensures EdgeOk(net, e, es, sw, dw, Install(ctl, mode))
  {
  }

  lemma SweepKeepsWake(net: Net, e: nat, es: Edge, dw: Worker, ctl: Control)
    requires e < |net.arcs| && WakeOk(|net.arcs|, e, es, dw, ctl) && ControlOk(|net.arcs|, ctl)
    ensures WakeOk(|net.arcs|, e, SweepEdge(ctl, e, es),
              Bump(dw, if SweepWakes(net, ctl, net.arcs[e].dst) then 1 else 0), SweepNext(|net.arcs|, ctl))
  {
  }

  /** Signal work at an edge does not depend on its queues, on a sleeping dispatcher's wake-up or on the sweep. */
  lemma SignalWorkStays(e: nat, es: Edge, after: Edge, w: Worker, w': Worker, ctl: Control, ctl': Control)
    requires SignalOk(e, es, w, ctl) && w'.pc == w.pc && (ctl.aborted ==> ctl'.aborted)
    requires after.chan == es.chan && after.ack == es.ack && after.accepted == es.accepted
    requires after.disp == es.disp || after.disp == Wake(es.disp)
    ensures SignalOk(e, after, w', ctl')
  {
  }

  lemma SweepKeepsSignals(net: Net, e: nat, es: Edge, sw: Worker, ctl: Control, times: nat)
    requires e < |net.arcs| && SignalOk(e, es, sw, ctl) && ControlOk(|net.arcs|, ctl)
    ensures SignalOk(e, SweepEdge(ctl, e, es), Bump(sw, times), SweepNext(|net.arcs|, ctl))
  {
    SignalWorkStays(e, es, SweepEdge(ctl, e, es), sw, Bump(sw, times), ctl, SweepNext(|net.arcs|, ctl));
  }

  lemma SweepKeepsRest(net: Net, e: nat, es: Edge, sw: Worker, ctl: Control, times: nat)
    requires e < |net.arcs| && ControlOk(|net.arcs|, ctl) && !ctl.closer.Idle? && !ctl.closer.Done?
    requires ShapeOk(net.arcs[e], es, ctl) && SleepOk(net.arcs[e], e, es, ctl)
    requires ExitOk(e, es, sw, ctl) && CloseOk(e, es, ctl)
    ensures ShapeOk(net.arcs[e], SweepEdge(ctl, e, es), SweepNext(|net.arcs|, ctl))
    ensures SleepOk(net.arcs[e], e, SweepEdge(ctl, e, es), SweepNext(|net.arcs|, ctl))
    ensures ExitOk(e, SweepEdge(ctl, e, es), Bump(sw, times), SweepNext(|net.arcs|, ctl))
    ensures CloseOk(e, SweepEdge(ctl, e, es), SweepNext(|net.arcs|, ctl))
  {
  }

  // ---------------------------------------------------------------- a dispatcher step seen by its own edge

  /** Nothing a sleeping or scanning consumer relies on has changed without a bump or a pending notify. */
  predicate Announced(e: nat, es: Edge, after: Edge, ctl: Control, ctlAfter: Control, bumps: nat) {
    && (ctl.aborted ==> ctlAfter.aborted) && (SweptPast(ctlAfter.closer, e) ==> SweptPast(ctl.closer, e))
    && (es.queueClosed && es.queue == [] ==> after.queueClosed && after.queue == [])
    && (es.signalsClosed && es.signals == [] ==> after.signalsClosed && after.signals == [])
    && (bumps == 0 && !NotifyPending(e, after, ctlAfter) ==>
          && !NotifyPending(e, es, ctl)
          && (after.queue != [] ==> es.queue != []) && (after.signals != [] ==> es.signals != [])
          && after.queueClosed == es.queueClosed && after.signalsClosed == es.signalsClosed)
  }

  lemma AnnouncedKeepsWake(size: nat, e: nat, es: Edge, after: Edge, w: Worker, ctl: Control, ctlAfter: Control,
                           bumps: nat)
    requires WakeOk(size, e, es, w, ctl) && Announced(e, es, after, ctl, ctlAfter, bumps)
    ensures WakeOk(size, e, after, Bump(w, bumps), ctlAfter)
  {
  }

  lemma FramesAnnounced(size: nat, a: Arc, e: nat, es: Edge, alive: bool, ctl: Control, c: PolicyChoice)
    requires ControlOk(size, ctl) && FrameEffect(a, es, alive, ctl, c).Some?
    ensures var f := FrameEffect(a, es, alive, ctl, c).value;
            Announced(e, es, f.edge, ctl, f.ctl, f.bumps)
  {
  }

  lemma SignalsAnnounced(size: nat, capacity: nat, e: nat, es: Edge, ctl: Control, c: PolicyChoice)
    requires ControlOk(size, ctl) && SignalEffect(capacity, es, ctl, c).Some?
    ensures var f := SignalEffect(capacity, es, ctl, c).value;
            Announced(e, es, f.edge, ctl, f.ctl, f.bumps)
  {
  }

  lemma ExitAnnounced(size: nat, mode: DrainMode, e: nat, es: Edge, ctl: Control)
    requires ControlOk(size, ctl) && ExitEffect(mode, es, ctl).Some?
    ensures var f := ExitEffect(mode, es, ctl).value;
            Announced(e, es, f.edge, ctl, f.ctl, f.bumps)
  {
  }

  lemma EndsWithNext(history: seq<Signal>, all: seq<Signal>, done: nat)
    requires done < |all| && EndsWith(history, all[..done])
    ensures EndsWith(history + [all[done]], all[..done + 1])
  {
    var longer := history + [all[done]];
    assert longer[|longer| - (done + 1)..] == history[|history| - done..] + [all[done]];
  }

  lemma AppliedNext(es: Edge, signals: seq<Signal>, all: seq<Signal>, done: nat, next: Edge)
    requires Applied(es, signals, all, done) && done < |all| && next.accepted == es.accepted + [all[done]]
    ensures Applied(next, signals, all, done + 1)
  {
    EndsWithNext(es.accepted, all, done);
  }

  /** A dispatcher working on signals keeps the producer's view of its acknowledgement. */
  lemma SignallingKeepsAck(capacity: nat, es: Edge, signals: seq<Signal>, ctl: Control, c: PolicyChoice)
    requires AckOk(es, signals, ctl)
    requires SignalEffect(capacity, es, ctl, c).Some?
    ensures var f := SignalEffect(capacity, es, ctl, c).value;
            AckOk(f.edge, signals, f.ctl)
  {
    var all, done := es.disp.all, es.disp.done;
    assert es.ack.Outstanding? && es.chan == [] && Applied(es, signals, all, done);
    var f := SignalEffect(capacity, es, ctl, c).value;
    if es.disp.NotifySignal? {
      assert f.edge == es.(disp := Signalling(all, done));
      assert Applied(f.edge, signals, all, done);
    } else if done == |all| {
      assert all[..done] == all;
      assert f.edge == es.(ack := Buffered, disp := Receiving);
    } else if f.edge.disp.NotifySignal? {
      AppliedNext(es, signals, all, done, f.edge);
      assert f.edge.chan == [] && f.edge.ack.Outstanding?;
    } else {
      assert f.edge == es.(disp := DFailing(true));
    }
  }

  /** A signal batch taken from the channel starts at its beginning. */
  lemma TakingStartsBatch(a: Arc, es: Edge, signals: seq<Signal>, alive: bool, ctl: Control, c: PolicyChoice)
    requires es.ack.Outstanding? && es.chan == [SignalBatch(signals)]
    requires es.disp.Receiving? && FrameEffect(a, es, alive, ctl, c).Some?
    ensures var f := FrameEffect(a, es, alive, ctl, c).value;
            AckOk(f.edge, signals, f.ctl)
  {
    var f := FrameEffect(a, es, alive, ctl, c).value;
    assert f.edge == es.(chan := [], disp := Signalling(signals, 0)) && signals[..0] == [];
    assert Applied(f.edge, signals, signals, 0);
  }

  /** Outside signal work the accepted history is untouched. */
  lemma FramesKeepAck(a: Arc, es: Edge, signals: seq<Signal>, alive: bool, ctl: Control, c: PolicyChoice)
    requires AckOk(es, signals, ctl) && !SignalBusy(es.disp) && alive
    requires FrameEffect(a, es, alive, ctl, c).Some?
    ensures var f := FrameEffect(a, es, alive, ctl, c).value;
            AckOk(f.edge, signals, f.ctl)
  {
    var f := FrameEffect(a, es, alive, ctl, c).value;
    if es.ack.Outstanding? {
      if es.disp.Receiving? {
        TakingStartsBatch(a, es, signals, alive, ctl, c);
      } else {
        FramesKeepChannel(a, es, alive, ctl, c);
      }
    } else {
      FramesKeepChannel(a, es, alive, ctl, c);
      FramesKeepQuiet(a, es, alive, ctl, c);
    }
  }

  lemma FramesKeepChannel(a: Arc, es: Edge, alive: bool, ctl: Control, c: PolicyChoice)
    requires !SignalBusy(es.disp) && alive && FrameEffect(a, es, alive, ctl, c).Some?
    ensures var f := FrameEffect(a, es, alive, ctl, c).value;
            && f.edge.ack == es.ack && f.edge.accepted == es.accepted && f.ctl == ctl
            && (!es.disp.Receiving? ==>
                f.edge.chan == es.chan && !SignalBusy(f.edge.disp) && ReceiverAlive(f.edge.disp))
  {
  }

  lemma BreakKeepsAck(es: Edge, signals: seq<Signal>, ctl: Control)
    requires AckOk(es, signals, ctl) && ctl.aborted && (es.disp.DFailing? || es.disp.DClosing?) && !es.disp.inSignals
    ensures AckOk(Break(es), signals, ctl)
  {
  }

  lemma ExitKeepsAck(mode: DrainMode, es: Edge, signals: seq<Signal>, ctl: Control)
    requires AckOk(es, signals, ctl)
    requires es.disp.DClosing? || es.disp.Acking? ==> ctl.aborted
    requires ExitEffect(mode, es, ctl).Some?
    ensures var f := ExitEffect(mode, es, ctl).value;
            AckOk(f.edge, signals, f.ctl)
  {
    if (es.disp.DFailing? || es.disp.DClosing?) && ctl.aborted && !es.disp.inSignals {
      BreakKeepsAck(es, signals, ctl);
    }
  }

  lemma FramesKeepQuiet(a: Arc, es: Edge, alive: bool, ctl: Control, c: PolicyChoice)
    requires Quiet(es) && FrameEffect(a, es, alive, ctl, c).Some?
    ensures var f := FrameEffect(a, es, alive, ctl, c).value;
            Quiet(f.edge) && f.edge.accepted == es.accepted && f.ctl == ctl
  {
  }

  lemma ExitKeepsQuiet(mode: DrainMode, es: Edge, ctl: Control)
    requires Quiet(es) && ExitEffect(mode, es, ctl).Some?
    ensures var f := ExitEffect(mode, es, ctl).value;
            Quiet(f.edge) && f.edge.accepted == es.accepted && (ctl.aborted ==> f.ctl.aborted)
  {
  }

  lemma DispatcherKeepsSignals(net: Net, e: nat, es: Edge, sw: Worker, ctl: Control, c: PolicyChoice)
    requires e < |net.arcs| && SignalOk(e, es, sw, ctl) && ShapeOk(net.arcs[e], es, ctl) && ExitOk(e, es, sw, ctl)
    requires DispatcherEffect(net, net.arcs[e], es, SenderAlive(sw, e), ctl, c).Some?
    ensures var f := DispatcherEffect(net, net.arcs[e], es, SenderAlive(sw, e), ctl, c).value;
            SignalOk(e, f.edge, sw, f.ctl)
  {
    var alive := SenderAlive(sw, e);
    var d := es.disp;
    if (sw.pc.SignalSend? && e < sw.pc.next) || sw.pc.AckWait? {
      if d.Signalling? || d.NotifySignal? {
        SignallingKeepsAck(net.signalCapacity, es, sw.pc.out.signals, ctl, c);
      } else if d.Receiving? || d.Applying? || d.Pushing? || d.NotifyFrame? {
        FramesKeepAck(net.arcs[e], es, sw.pc.out.signals, alive, ctl, c);
      } else {
        ExitKeepsAck(net.failureMode, es, sw.pc.out.signals, ctl);
      }
    } else if Quiet(es) {
      if d.Receiving? || d.Applying? || d.Pushing? || d.NotifyFrame? {
        FramesKeepQuiet(net.arcs[e], es, alive, ctl, c);
      } else {
        ExitKeepsQuiet(net.failureMode, es, ctl);
      }
    }
  }

  lemma PushKeepsShape(a: Arc, e: nat, es: Edge, frame: Frame, rest: seq<Frame>, ctl: Control)
    requires a.capacity > 0 && ShapeOk(a, es, ctl) && ReceiverAlive(es.disp)
    ensures var f := PushStep(a, es, frame, rest, ctl).value;
            ShapeOk(a, f.edge, ctl) && SleepOk(a, e, f.edge, ctl) && f.ctl == ctl
  {
    assert es.entered == es.left + es.queue ==> es.entered + [frame] == es.left + (es.queue + [frame]);
  }

  lemma ReceivingKeepsShape(a: Arc, e: nat, es: Edge, alive: bool, ctl: Control, c: PolicyChoice)
    requires ShapeOk(a, es, ctl) && es.disp.Receiving? && FrameEffect(a, es, alive, ctl, c).Some?
    ensures var f := FrameEffect(a, es, alive, ctl, c).value;
            ShapeOk(a, f.edge, f.ctl) && SleepOk(a, e, f.edge, f.ctl)
  {
  }

  lemma ApplyingKeepsShape(a: Arc, e: nat, es: Edge, alive: bool, ctl: Control, c: PolicyChoice)
    requires ShapeOk(a, es, ctl) && (es.disp.Applying? || es.disp.NotifyFrame?)
    requires FrameEffect(a, es, alive, ctl, c).Some?
    ensures var f := FrameEffect(a, es, alive, ctl, c).value;
            ShapeOk(a, f.edge, f.ctl) && SleepOk(a, e, f.edge, f.ctl)
  {
  }

  lemma FrameKeepsShape(a: Arc, e: nat, es: Edge, sw: Worker, ctl: Control, c: PolicyChoice)
    requires a.capacity > 0 && (ctl.aborted <==> !ctl.closer.Idle?)
    requires ShapeOk(a, es, ctl) && SleepOk(a, e, es, ctl)
    requires FrameEffect(a, es, SenderAlive(sw, e), ctl, c).Some?
    ensures var f := FrameEffect(a, es, SenderAlive(sw, e), ctl, c).value;
            ShapeOk(a, f.edge, f.ctl) && SleepOk(a, e, f.edge, f.ctl)
  {
    if es.disp.Pushing? {
      PushKeepsShape(a, e, es, es.disp.frame, es.disp.batch, ctl);
    } else if es.disp.Receiving? {
      ReceivingKeepsShape(a, e, es, SenderAlive(sw, e), ctl, c);
    } else {
      ApplyingKeepsShape(a, e, es, SenderAlive(sw, e), ctl, c);
    }
  }

  lemma FrameKeepsExit(a: Arc, e: nat, es: Edge, sw: Worker, ctl: Control, c: PolicyChoice)
    requires ctl.aborted <==> !ctl.closer.Idle?
    requires ExitOk(e, es, sw, ctl) && CloseOk(e, es, ctl)
    requires FrameEffect(a, es, SenderAlive(sw, e), ctl, c).Some?
    ensures var f := FrameEffect(a, es, SenderAlive(sw, e), ctl, c).value;
            ExitOk(e, f.edge, sw, f.ctl) && CloseOk(e, f.edge, f.ctl)
  {
  }

  lemma SignalKeepsShape(a: Arc, capacity: nat, e: nat, es: Edge, sw: Worker, ctl: Control, c: PolicyChoice)
    requires a.capacity > 0 && (ctl.aborted <==> !ctl.closer.Idle?)
    requires ShapeOk(a, es, ctl) && SleepOk(a, e, es, ctl)
    requires SignalEffect(capacity, es, ctl, c).Some?
    ensures var f := SignalEffect(capacity, es, ctl, c).value;
            ShapeOk(a, f.edge, f.ctl) && SleepOk(a, e, f.edge, f.ctl)
  {
  }

  lemma SignalKeepsExit(capacity: nat, e: nat, es: Edge, sw: Worker, ctl: Control, c: PolicyChoice)
    requires ctl.aborted <==> !ctl.closer.Idle?
    requires ExitOk(e, es, sw, ctl) && CloseOk(e, es, ctl)
    requires SignalEffect(capacity, es, ctl, c).Some?
    ensures var f := SignalEffect(capacity, es, ctl, c).value;
            ExitOk(e, f.edge, sw, f.ctl) && CloseOk(e, f.edge, f.ctl)
  {
  }

  lemma ExitKeepsShape(a: Arc, mode: DrainMode, e: nat, es: Edge, sw: Worker, ctl: Control)
    requires a.capacity > 0 && (ctl.aborted <==> !ctl.closer.Idle?)
    requires ShapeOk(a, es, ctl) && SleepOk(a, e, es, ctl)
    requires ExitEffect(mode, es, ctl).Some?
    ensures var f := ExitEffect(mode, es, ctl).value;
            ShapeOk(a, f.edge, f.ctl) && SleepOk(a, e, f.edge, f.ctl)
  {
  }

  lemma ExitKeepsExit(mode: DrainMode, e: nat, es: Edge, sw: Worker, ctl: Control)
    requires ctl.aborted <==> !ctl.closer.Idle?
    requires ExitOk(e, es, sw, ctl) && CloseOk(e, es, ctl)
    requires ExitEffect(mode, es, ctl).Some?
    ensures var f := ExitEffect(mode, es, ctl).value;
            ExitOk(e, f.edge, sw, f.ctl) && CloseOk(e, f.edge, f.ctl)
  {
  }

  lemma DispatcherKeepsEdge(net: Net, e: nat, es: Edge, sw: Worker, dw: Worker, ctl: Control, c: PolicyChoice)
    requires WellFormed(net) && e < |net.arcs| && ControlOk(|net.arcs|, ctl) && EdgeOk(net, e, es, sw, dw, ctl)
    requires DispatcherEffect(net, net.arcs[e], es, SenderAlive(sw, e), ctl, c).Some?
    ensures var f := DispatcherEffect(net, net.arcs[e], es, SenderAlive(sw, e), ctl, c).value;
            EdgeOk(net, e, f.edge, sw, Bump(dw, f.bumps), f.ctl)
  {
    var a, d := net.arcs[e], es.disp;
    var f := DispatcherEffect(net, a, es, SenderAlive(sw, e), ctl, c).value;
    DispatcherKeepsSignals(net, e, es, sw, ctl, c);
    if d.Signalling? || d.NotifySignal? {
      SignalsAnnounced(|net.arcs|, net.signalCapacity, e, es, ctl, c);
      SignalKeepsShape(a, net.signalCapacity, e, es, sw, ctl, c);
      SignalKeepsExit(net.signalCapacity, e, es, sw, ctl, c);
    } else if d.Receiving? || d.Applying? || d.Pushing? || d.NotifyFrame? {
      FramesAnnounced(|net.arcs|, a, e, es, SenderAlive(sw, e), ctl, c);
      FrameKeepsShape(a, e, es, sw, ctl, c);
      FrameKeepsExit(a, e, es, sw, ctl, c);
    } else {
      ExitAnnounced(|net.arcs|, net.failureMode, e, es, ctl);
      ExitKeepsShape(a, net.failureMode, e, es, sw, ctl);
      ExitKeepsExit(net.failureMode, e, es, sw, ctl);
    }
    AnnouncedKeepsWake(|net.arcs|, e, es, f.edge, dw, ctl, f.ctl, f.bumps);
  }

  // ---------------------------------------------------------------- a worker step seen by an edge

  function EdgeAfter(s: State, f: Effect, e: nat): Edge
    requires e < |s.edges|
  {
    if f.changed == Some(e) then f.edge else s.edges[e]
  }

  /** The positions a routing worker can move to. */
  predicate Routing(net: Net, n: nat, pc: WorkerPc)
    requires n < |net.source|
  {
    || pc.SignalSend? || pc.AckWait? || pc.ReasonCheck? || pc.TrySend? || pc.PendingSend? || pc.Observe?
    || pc == Failing(false) || (net.source[n] && (pc == Ticking || pc == Leaving(0)))
  }

  lemma SignalSendKeepsSignals(net: Net, s: State, n: nat, c: Choice, e: nat)
    requires WellFormed(net) && Shaped(net, s) && n < net.nodes && e < |net.arcs| && net.arcs[e].src == n
    requires s.workers[n].pc.SignalSend? && SignalOk(e, s.edges[e], s.workers[n], s.ctl)
    requires BarrierStep(net, s, n, c).Some?
    ensures var f := BarrierStep(net, s, n, c).value;
            SignalOk(e, EdgeAfter(s, f, e), f.worker, f.ctl)
  {
  }

  lemma AckWaitKeepsSignals(net: Net, s: State, n: nat, c: Choice, e: nat)
    requires WellFormed(net) && Shaped(net, s) && n < net.nodes && e < |net.arcs| && net.arcs[e].src == n
    requires s.workers[n].pc.AckWait? && SignalOk(e, s.edges[e], s.workers[n], s.ctl) && BarrierStep(net, s, n, c).Some?
    ensures var f := BarrierStep(net, s, n, c).value;
            SignalOk(e, EdgeAfter(s, f, e), f.worker, f.ctl)
  {
  }

  lemma BarrierKeepsSignals(net: Net, s: State, n: nat, c: Choice, e: nat)
    requires WellFormed(net) && Shaped(net, s) && n < net.nodes && e < |net.arcs| && net.arcs[e].src == n
    requires SignalOk(e, s.edges[e], s.workers[n], s.ctl) && BarrierStep(net, s, n, c).Some?
    ensures var f := BarrierStep(net, s, n, c).value;
            SignalOk(e, EdgeAfter(s, f, e), f.worker, f.ctl)
  {
    if s.workers[n].pc.SignalSend? { SignalSendKeepsSignals(net, s, n, c, e); }
    else if s.workers[n].pc.AckWait? { AckWaitKeepsSignals(net, s, n, c, e); }
  }

  /** Only the worker's own outgoing edges are touched, and only at the sending end. */
  lemma BarrierTouches(net: Net, s: State, n: nat, c: Choice, e: nat)
    requires WellFormed(net) && Shaped(net, s) && n < net.nodes && e < |net.arcs|
    requires BarrierStep(net, s, n, c).Some? && PcFits(net, n, s.workers[n]) && |s.edges[e].chan| <= 1
    ensures var f := BarrierStep(net, s, n, c).value;
            var before, after := s.edges[e], EdgeAfter(s, f, e);
            && f.ctl == s.ctl
            && (net.arcs[e].src != n ==> f.changed != Some(e))
            && after == before.(chan := after.chan, ack := after.ack)
            && |after.chan| <= 1 && (!ReceiverAlive(before.disp) ==> after.chan == before.chan)
  {
  }

  /** Where the worker goes next, and that it stays well-formed. */
  lemma BarrierMoves(net: Net, s: State, n: nat, c: Choice)
    requires WellFormed(net) && Shaped(net, s) && n < net.nodes
    requires BarrierStep(net, s, n, c).Some? && PcFits(net, n, s.workers[n])
    ensures var f := BarrierStep(net, s, n, c).value;
            && f.remaining == s.remaining && f.worker == s.workers[n].(pc := f.worker.pc)
            && PcFits(net, n, f.worker) && Routing(net, n, f.worker.pc)
  {
  }

  lemma FramesLeaveQuiet(net: Net, s: State, n: nat, e: nat)
    requires WellFormed(net) && Shaped(net, s) && n < net.nodes && e < |net.arcs|
    requires Quiet(s.edges[e]) && FramesStep(net, s, n).Some?
    ensures var after := EdgeAfter(s, FramesStep(net, s, n).value, e);
            Quiet(after) && after.accepted == s.edges[e].accepted
  {
  }

  /** Sending frames goes on with the same callback, or ends in a quiet position or in failing. */
  lemma FramesGoOn(net: Net, s: State, n: nat)
    requires WellFormed(net) && Shaped(net, s) && n < net.nodes && FramesStep(net, s, n).Some?
    ensures var before, after := s.workers[n].pc, FramesStep(net, s, n).value.worker.pc;
            || ((after.TrySend? || after.PendingSend?) && after.out == before.out)
            || after == Failing(false) || after == Ticking || after == Leaving(0) || after == Observe
  {
  }

  lemma FramesKeepsSignals(net: Net, s: State, n: nat, e: nat)
    requires WellFormed(net) && Shaped(net, s) && n < net.nodes && e < |net.arcs| && net.arcs[e].src == n
    requires SignalOk(e, s.edges[e], s.workers[n], s.ctl) && FramesStep(net, s, n).Some?
    ensures var f := FramesStep(net, s, n).value;
            SignalOk(e, EdgeAfter(s, f, e), f.worker, f.ctl)
  {
    FramesLeaveQuiet(net, s, n, e);
    FramesGoOn(net, s, n);
  }

  /** Only the worker's own outgoing edges are touched, and only at the sending end. */
  lemma FramesTouches(net: Net, s: State, n: nat, e: nat)
    requires WellFormed(net) && Shaped(net, s) && n < net.nodes && e < |net.arcs|
    requires FramesStep(net, s, n).Some? && PcFits(net, n, s.workers[n]) && |s.edges[e].chan| <= 1
    ensures var f := FramesStep(net, s, n).value;
            var before, after := s.edges[e], EdgeAfter(s, f, e);
            && f.ctl == s.ctl
            && (net.arcs[e].src != n ==> f.changed != Some(e))
            && after == before.(chan := after.chan, ack := after.ack)
            && |after.chan| <= 1 && (!ReceiverAlive(before.disp) ==> after.chan == before.chan)
  {
  }

  lemma TrySendMoves(net: Net, s: State, n: nat)
    requires WellFormed(net) && Shaped(net, s) && n < net.nodes && s.workers[n].pc.TrySend?
    requires FramesStep(net, s, n).Some? && PcFits(net, n, s.workers[n])
    ensures var f := FramesStep(net, s, n).value;
            && f.remaining == s.remaining && f.worker == s.workers[n].(pc := f.worker.pc)
            && PcFits(net, n, f.worker) && Routing(net, n, f.worker.pc)
  {
  }

  /** Where the worker goes next, and that it stays well-formed. */
  lemma FramesMoves(net: Net, s: State, n: nat)
    requires WellFormed(net) && Shaped(net, s) && n < net.nodes
    requires FramesStep(net, s, n).Some? && PcFits(net, n, s.workers[n])
    ensures var f := FramesStep(net, s, n).value;
            && f.remaining == s.remaining && f.worker == s.workers[n].(pc := f.worker.pc)
            && PcFits(net, n, f.worker) && Routing(net, n, f.worker.pc)
  {
    if s.workers[n].pc.TrySend? { TrySendMoves(net, s, n); }
  }

  predicate Ready(net: Net, s: State) {
    WellFormed(net) && Shaped(net, s) && ControlOk(|net.arcs|, s.ctl)
  }

  predicate IsRouting(pc: WorkerPc) {
    pc.SignalSend? || pc.AckWait? || pc.ReasonCheck? || pc.TrySend? || pc.PendingSend?
  }

  predicate EdgeHoldsAfter(net: Net, s: State, n: nat, f: Effect, e: nat)
    requires Ready(net, s) && n < net.nodes && e < |net.arcs|
  {
    EdgeOk(net, e, EdgeAfter(s, f, e),
      if net.arcs[e].src == n then f.worker else s.workers[net.arcs[e].src],
      if net.arcs[e].dst == n then f.worker else s.workers[net.arcs[e].dst], f.ctl)
  }

  /** What a routing step does to the worker and to edge `e`. */
  predicate RouteFacts(net: Net, s: State, n: nat, f: Effect, e: nat)
    requires Ready(net, s) && n < net.nodes && e < |net.arcs|
  {
    var before, after := s.edges[e], EdgeAfter(s, f, e);
    && f.ctl == s.ctl && f.remaining == s.remaining
    && f.worker == s.workers[n].(pc := f.worker.pc) && PcFits(net, n, f.worker) && Routing(net, n, f.worker.pc)
    && after == before.(chan := after.chan, ack := after.ack)
    && |after.chan| <= 1 && (!ReceiverAlive(before.disp) ==> after.chan == before.chan)
    && (if net.arcs[e].src == n then SignalOk(e, after, f.worker, f.ctl) else f.changed != Some(e))
  }

  lemma RouteFactsHold(net: Net, s: State, n: nat, c: Choice, e: nat)
    requires Ready(net, s) && n < net.nodes && e < |net.arcs|
    requires EdgeHolds(net, s, e) && PcFits(net, n, s.workers[n])
    requires IsRouting(s.workers[n].pc) && WorkerEffect(net, s, n, c).Some?
    ensures RouteFacts(net, s, n, WorkerEffect(net, s, n, c).value, e)
  {
    if s.workers[n].pc.TrySend? || s.workers[n].pc.PendingSend? {
      FramesTouches(net, s, n, e);
      FramesMoves(net, s, n);
      if net.arcs[e].src == n { FramesKeepsSignals(net, s, n, e); }
    } else {
      BarrierTouches(net, s, n, c, e);
      BarrierMoves(net, s, n, c);
      if net.arcs[e].src == n { BarrierKeepsSignals(net, s, n, c, e); }
    }
  }

  lemma RouteKeepsEdge(net: Net, s: State, n: nat, f: Effect, e: nat)
    requires Ready(net, s) && n < net.nodes && e < |net.arcs|
    requires EdgeHolds(net, s, e) && IsRouting(s.workers[n].pc) && RouteFacts(net, s, n, f, e)
    ensures EdgeHoldsAfter(net, s, n, f, e)
  {
    var a := net.arcs[e];
    var dw := s.workers[a.dst];
    if a.src == n {
      AnnouncedKeepsWake(|net.arcs|, e, s.edges[e], EdgeAfter(s, f, e), dw, s.ctl, s.ctl, 0);
      assert Bump(dw, 0) == dw;
    }
  }

  predicate IsScanning(pc: WorkerPc) {
    pc.Observe? || pc.ScanSignals? || pc.TickCheck? || pc.ScanFrames? || pc.ClosedCheck? || pc.Parked?
  }

  /** A scan pops at most one element, from an edge into this node; a frame pop wakes a sleeping producer. */
  predicate Popped(before: Edge, after: Edge) {
    || after == before
    || (before.signals != [] && after == before.(signals := before.signals[1..]))
    || (before.queue != []
        && after == before.(queue := before.queue[1..], left := before.left + [before.queue[0]],
                            disp := Wake(before.disp)))
  }

  lemma ScanTouches(net: Net, s: State, n: nat, c: Choice, e: nat)
    requires Ready(net, s) && n < net.nodes && e < |net.arcs| && ScanStep(net, s, n, c).Some?
    ensures var f := ScanStep(net, s, n, c).value;
            && Popped(s.edges[e], EdgeAfter(s, f, e))
            && (net.arcs[e].dst != n ==> f.changed != Some(e))
  {
  }

  lemma ScanMoves(net: Net, s: State, n: nat, c: Choice)
    requires Ready(net, s) && n < net.nodes && ScanStep(net, s, n, c).Some?
    requires WorkerOk(net, n, s.workers[n], s.ctl)
    ensures var f := ScanStep(net, s, n, c).value;
            && f.ctl == s.ctl && f.remaining == s.remaining && WorkerOk(net, n, f.worker, f.ctl)
            && (IsScanning(f.worker.pc) || f.worker.pc.Calling? || f.worker.pc == Leaving(0))
  {
  }

  lemma ScanSignalsKeepsWake(net: Net, s: State, n: nat, c: Choice, e: nat)
    requires Ready(net, s) && n < net.nodes && e < |net.arcs| && net.arcs[e].dst == n
    requires s.workers[n].pc.ScanSignals? && s.workers[n].cursor < |net.arcs|
    requires WakeOk(|net.arcs|, e, s.edges[e], s.workers[n], s.ctl) && ScanStep(net, s, n, c).Some?
    ensures var f := ScanStep(net, s, n, c).value;
            WakeOk(|net.arcs|, e, EdgeAfter(s, f, e), f.worker, f.ctl)
  {
    var w := s.workers[n];
    if w.pc.off < |net.arcs| {
      VisitAtDistance(|net.arcs|, w.cursor, w.pc.off, e);
    } else {
      VisitAtDistance(|net.arcs|, w.cursor, 0, e);
    }
  }

  lemma ScanFramesKeepsWake(net: Net, s: State, n: nat, c: Choice, e: nat)
    requires Ready(net, s) && n < net.nodes && e < |net.arcs| && net.arcs[e].dst == n
    requires s.workers[n].pc.ScanFrames? && s.workers[n].cursor < |net.arcs|
    requires WakeOk(|net.arcs|, e, s.edges[e], s.workers[n], s.ctl) && ScanStep(net, s, n, c).Some?
    ensures var f := ScanStep(net, s, n, c).value;
            WakeOk(|net.arcs|, e, EdgeAfter(s, f, e), f.worker, f.ctl)
  {
    var w := s.workers[n];
    if w.pc.off < |net.arcs| {
      VisitAtDistance(|net.arcs|, w.cursor, w.pc.off, e);
    } else {
      VisitAtDistance(|net.arcs|, w.cursor, 0, e);
    }
  }

  lemma ClosedCheckKeepsWake(net: Net, s: State, n: nat, c: Choice, e: nat)
    requires Ready(net, s) && n < net.nodes && e < |net.arcs| && net.arcs[e].dst == n && s.workers[n].pc.ClosedCheck?
    requires WakeOk(|net.arcs|, e, s.edges[e], s.workers[n], s.ctl) && ScanStep(net, s, n, c).Some?
    ensures var f := ScanStep(net, s, n, c).value;
            WakeOk(|net.arcs|, e, EdgeAfter(s, f, e), f.worker, f.ctl)
  {
  }

  lemma ScanRestKeepsWake(net: Net, s: State, n: nat, c: Choice, e: nat)
    requires Ready(net, s) && n < net.nodes && e < |net.arcs| && net.arcs[e].dst == n
    requires !s.workers[n].pc.ScanSignals? && !s.workers[n].pc.ScanFrames? && s.workers[n].cursor < |net.arcs|
    requires WakeOk(|net.arcs|, e, s.edges[e], s.workers[n], s.ctl) && ScanStep(net, s, n, c).Some?
    ensures var f := ScanStep(net, s, n, c).value;
            WakeOk(|net.arcs|, e, EdgeAfter(s, f, e), f.worker, f.ctl)
  {
    if s.workers[n].pc.ClosedCheck? {
      ClosedCheckKeepsWake(net, s, n, c, e);
    } else {
      VisitAtDistance(|net.arcs|, s.workers[n].cursor, 0, e);
    }
  }

  lemma PoppedKeeps(a: Arc, e: nat, es: Edge, after: Edge, sw: Worker, ctl: Control)
    requires Popped(es, after)
    requires SignalOk(e, es, sw, ctl) && ShapeOk(a, es, ctl)
    requires SleepOk(a, e, es, ctl) && ExitOk(e, es, sw, ctl) && CloseOk(e, es, ctl)
    ensures SignalOk(e, after, sw, ctl) && ShapeOk(a, after, ctl)
    ensures SleepOk(a, e, after, ctl) && ExitOk(e, after, sw, ctl) && CloseOk(e, after, ctl)
  {
    if es.queue != [] {
      assert es.left + es.queue == (es.left + [es.queue[0]]) + es.queue[1..];
    }
  }

  lemma ScanKeepsEdge(net: Net, s: State, n: nat, c: Choice, e: nat)
    requires Ready(net, s) && n < net.nodes && e < |net.arcs| && EdgeHolds(net, s, e)
    requires WorkerOk(net, n, s.workers[n], s.ctl) && ScanStep(net, s, n, c).Some? && IsScanning(s.workers[n].pc)
    ensures EdgeHoldsAfter(net, s, n, ScanStep(net, s, n, c).value, e)
  {
    var f := ScanStep(net, s, n, c).value;
    var pc := s.workers[n].pc;
    ScanTouches(net, s, n, c, e);
    ScanMoves(net, s, n, c);
    if net.arcs[e].dst == n {
      if pc.ScanSignals? {
        ScanSignalsKeepsWake(net, s, n, c, e);
      } else if pc.ScanFrames? {
        ScanFramesKeepsWake(net, s, n, c, e);
      } else {
        ScanRestKeepsWake(net, s, n, c, e);
      }
      PoppedKeeps(net.arcs[e], e, s.edges[e], EdgeAfter(s, f, e), s.workers[net.arcs[e].src], s.ctl);
    }
  }

  // ---------------------------------------------------------------- lifecycle steps

  /** A lifecycle step leaves every edge alone and changes the control record only by installing the first abort. */
  lemma LifecycleTouches(net: Net, s: State, n: nat, c: Choice)
    requires Ready(net, s) && n < net.nodes && LifecycleStep(net, s, n, c).Some?
    ensures var f := LifecycleStep(net, s, n, c).value;
            f.changed.None? && (f.ctl == s.ctl || (!s.ctl.aborted && f.ctl == Install(s.ctl, net.failureMode)))
  {
  }

  lemma CallMoves(net: Net, s: State, n: nat, c: Choice)
    requires Ready(net, s) && n < net.nodes && LifecycleStep(net, s, n, c).Some? && s.workers[n].pc.Calling?
    requires WorkerOk(net, n, s.workers[n], s.ctl)
    ensures var f := LifecycleStep(net, s, n, c).value;
            WorkerOk(net, n, f.worker, f.ctl) && f.ctl == s.ctl
  {
  }

  /** Failing, closing and leaving move towards the exit, behind an installed reason. */
  lemma EndMoves(net: Net, s: State, n: nat, c: Choice, f: Effect)
    requires Ready(net, s) && n < net.nodes && LifecycleStep(net, s, n, c) == Some(f)
    requires s.workers[n].pc.Failing? || s.workers[n].pc.Closing? || s.workers[n].pc.Leaving?
    requires WorkerOk(net, n, s.workers[n], s.ctl)
    ensures WorkerOk(net, n, f.worker, f.ctl) && ControlOk(|net.arcs|, f.ctl)
  {
  }

  lemma BeginMoves(net: Net, s: State, n: nat, c: Choice, f: Effect)
    requires Ready(net, s) && n < net.nodes && LifecycleStep(net, s, n, c) == Some(f)
    requires !s.workers[n].pc.Failing? && !s.workers[n].pc.Closing?
    requires !s.workers[n].pc.Leaving? && !s.workers[n].pc.Calling?
    requires WorkerOk(net, n, s.workers[n], s.ctl)
    ensures WorkerOk(net, n, f.worker, f.ctl) && ControlOk(|net.arcs|, f.ctl)
  {
  }

  lemma LifecycleMoves(net: Net, s: State, n: nat, c: Choice)
    requires Ready(net, s) && n < net.nodes && LifecycleStep(net, s, n, c).Some?
    requires WorkerOk(net, n, s.workers[n], s.ctl)
    ensures var f := LifecycleStep(net, s, n, c).value;
            WorkerOk(net, n, f.worker, f.ctl) && ControlOk(|net.arcs|, f.ctl)
  {
    var pc, f := s.workers[n].pc, LifecycleStep(net, s, n, c).value;
    if pc.Calling? { CallMoves(net, s, n, c); }
    else if pc.Failing? || pc.Closing? || pc.Leaving? { EndMoves(net, s, n, c, f); }
    else { BeginMoves(net, s, n, c, f); }
  }

  lemma LifecycleKeepsWake(net: Net, s: State, n: nat, c: Choice, e: nat)
    requires Ready(net, s) && n < net.nodes && e < |net.arcs| && net.arcs[e].dst == n
    requires LifecycleStep(net, s, n, c).Some? && WorkerOk(net, n, s.workers[n], s.ctl)
    requires WakeOk(|net.arcs|, e, s.edges[e], s.workers[n], s.ctl)
    ensures var f := LifecycleStep(net, s, n, c).value;
            WakeOk(|net.arcs|, e, s.edges[e], f.worker, f.ctl)
  {
  }

  lemma LifecycleKeepsSignals(net: Net, s: State, n: nat, c: Choice, e: nat)
    requires Ready(net, s) && n < net.nodes && e < |net.arcs| && net.arcs[e].src == n
    requires LifecycleStep(net, s, n, c).Some? && SignalOk(e, s.edges[e], s.workers[n], s.ctl)
    requires ExitOk(e, s.edges[e], s.workers[n], s.ctl)
    ensures var f := LifecycleStep(net, s, n, c).value;
            SignalOk(e, s.edges[e], f.worker, f.ctl) && ExitOk(e, s.edges[e], f.worker, f.ctl)
  {
  }

  lemma LifecycleKeepsEdge(net: Net, s: State, n: nat, c: Choice, e: nat)
    requires Ready(net, s) && n < net.nodes && e < |net.arcs| && EdgeHolds(net, s, e)
    requires WorkerOk(net, n, s.workers[n], s.ctl) && LifecycleStep(net, s, n, c).Some?
    ensures EdgeHoldsAfter(net, s, n, LifecycleStep(net, s, n, c).value, e)
  {
    var a, f := net.arcs[e], LifecycleStep(net, s, n, c).value;
    LifecycleTouches(net, s, n, c);
    if f.ctl != s.ctl {
      AbortKeepsEdge(net, e, s.edges[e], s.workers[a.src], s.workers[a.dst], s.ctl, net.failureMode);
    }
    if a.dst == n {
      LifecycleKeepsWake(net, s, n, c, e);
    } else if a.src == n {
      LifecycleKeepsSignals(net, s, n, c, e);
    }
  }

  // ---------------------------------------------------------------- whole steps

  lemma WorkerKeepsEdge(net: Net, s: State, n: nat, c: Choice, e: nat)
    requires Ready(net, s) && n < net.nodes && e < |net.arcs| && EdgeHolds(net, s, e)
    requires WorkerOk(net, n, s.workers[n], s.ctl) && WorkerEffect(net, s, n, c).Some?
    ensures EdgeHoldsAfter(net, s, n, WorkerEffect(net, s, n, c).value, e)
  {
    var pc := s.workers[n].pc;
    if IsRouting(pc) {
      RouteFactsHold(net, s, n, c, e);
      RouteKeepsEdge(net, s, n, WorkerEffect(net, s, n, c).value, e);
    } else if IsScanning(pc) {
      ScanKeepsEdge(net, s, n, c, e);
    } else {
      LifecycleKeepsEdge(net, s, n, c, e);
    }
  }

  lemma WorkerStaysOk(net: Net, s: State, n: nat, c: Choice)
    requires WellFormed(net) && Inv(net, s) && n < net.nodes && WorkerEffect(net, s, n, c).Some?
    ensures var f := WorkerEffect(net, s, n, c).value;
            WorkerOk(net, n, f.worker, f.ctl) && ControlOk(|net.arcs|, f.ctl)
            && (f.ctl == s.ctl || (!s.ctl.aborted && f.ctl == Install(s.ctl, net.failureMode)))
  {
    var pc := s.workers[n].pc;
    if pc.TrySend? || pc.PendingSend? {
      FramesMoves(net, s, n);
      FramesKeepControl(net, s, n);
    } else if IsRouting(pc) {
      BarrierMoves(net, s, n, c);
      BarrierKeepsControl(net, s, n, c);
    } else if IsScanning(pc) {
      ScanMoves(net, s, n, c);
    } else {
      LifecycleTouches(net, s, n, c);
      LifecycleMoves(net, s, n, c);
    }
  }

  lemma FramesKeepControl(net: Net, s: State, n: nat)
    requires Ready(net, s) && n < net.nodes && FramesStep(net, s, n).Some?
    ensures FramesStep(net, s, n).value.ctl == s.ctl
  {
  }

  lemma BarrierKeepsControl(net: Net, s: State, n: nat, c: Choice)
    requires Ready(net, s) && n < net.nodes && BarrierStep(net, s, n, c).Some?
    ensures BarrierStep(net, s, n, c).value.ctl == s.ctl
  {
  }

  lemma WorkerKeepsCount(net: Net, s: State, n: nat, c: Choice)
    requires WellFormed(net) && Inv(net, s) && n < net.nodes && WorkerEffect(net, s, n, c).Some?
    ensures var t := ApplyWorker(s, n, WorkerEffect(net, s, n, c).value);
            t.remaining == |Waiting(t.workers)|
  {
    var w := s.workers[n];
    var f := WorkerEffect(net, s, n, c).value;
    WaitingAfter(s.workers, n, f.worker);
    if IsRouting(w.pc) {
      if w.pc.TrySend? || w.pc.PendingSend? { FramesMoves(net, s, n); } else { BarrierMoves(net, s, n, c); }
    } else if IsScanning(w.pc) {
      ScanMoves(net, s, n, c);
    } else {
      LifecycleCounts(net, s, n, c);
      if w.pc.Arriving? { assert n in Waiting(s.workers); }
    }
  }

  lemma LifecycleCounts(net: Net, s: State, n: nat, c: Choice)
    requires Ready(net, s) && n < net.nodes && LifecycleStep(net, s, n, c).Some?
    ensures var f := LifecycleStep(net, s, n, c).value;
            if s.workers[n].pc.Arriving? then
              f.worker.pc.Gated? && f.remaining == if s.remaining == 0 then 0 else s.remaining - 1
            else f.remaining == s.remaining && NotArrived(f.worker) == NotArrived(s.workers[n])
  {
  }

  lemma WorkerKeepsInv(net: Net, s: State, n: nat, c: Choice)
    requires WellFormed(net) && Inv(net, s) && n < net.nodes && WorkerEffect(net, s, n, c).Some?
    ensures Inv(net, ApplyWorker(s, n, WorkerEffect(net, s, n, c).value))
  {
    var f := WorkerEffect(net, s, n, c).value;
    var t := ApplyWorker(s, n, f);
    WorkerStaysOk(net, s, n, c);
    WorkerKeepsCount(net, s, n, c);
    forall e | 0 <= e < |net.arcs| ensures EdgeHolds(net, t, e) {
      assert EdgeHolds(net, s, e);
      WorkerKeepsEdge(net, s, n, c, e);
      assert t.edges[e] == EdgeAfter(s, f, e);
    }
    forall m | 0 <= m < net.nodes ensures WorkerOk(net, m, t.workers[m], t.ctl) {
      assert WorkerOk(net, m, s.workers[m], s.ctl);
    }
  }

  lemma DispatcherKeepsControl(net: Net, s: State, e: nat, c: PolicyChoice)
    requires Ready(net, s) && e < |net.arcs|
    requires DispatcherEffect(net, net.arcs[e], s.edges[e], SenderAlive(s.workers[net.arcs[e].src], e), s.ctl, c).Some?
    ensures var f := DispatcherEffect(net, net.arcs[e], s.edges[e], SenderAlive(s.workers[net.arcs[e].src], e),
                                      s.ctl, c).value;
            f.ctl == s.ctl || (!s.ctl.aborted && f.ctl == Install(s.ctl, net.failureMode))
  {
  }

  /** A bump of the target's generation or a first abort leaves every other edge consistent. */
  lemma BumpKeepsEdge(net: Net, s: State, d: nat, times: nat, ctl: Control, e: nat)
    requires Ready(net, s) && d < net.nodes && e < |net.arcs| && EdgeHolds(net, s, e)
    requires ctl == s.ctl || (!s.ctl.aborted && ctl == Install(s.ctl, net.failureMode))
    ensures var workers := s.workers[d := Bump(s.workers[d], times)];
            EdgeOk(net, e, s.edges[e], workers[net.arcs[e].src], workers[net.arcs[e].dst], ctl)
  {
    var a := net.arcs[e];
    var dw := s.workers[a.dst];
    if ctl != s.ctl {
      AbortKeepsEdge(net, e, s.edges[e], s.workers[a.src], dw, s.ctl, net.failureMode);
    }
    if a.dst == d {
      AnnouncedKeepsWake(|net.arcs|, e, s.edges[e], s.edges[e], dw, ctl, ctl, times);
    }
  }

  lemma DispatcherKeepsInv(net: Net, s: State, e: nat, c: PolicyChoice)
    requires WellFormed(net) && Inv(net, s) && e < |net.arcs|
    requires DispatcherEffect(net, net.arcs[e], s.edges[e], SenderAlive(s.workers[net.arcs[e].src], e), s.ctl, c).Some?
    ensures var f := DispatcherEffect(net, net.arcs[e], s.edges[e], SenderAlive(s.workers[net.arcs[e].src], e),
                                      s.ctl, c).value;
            Inv(net, ApplyDispatcher(s, e, net.arcs[e].dst, f))
  {
    var a := net.arcs[e];
    var f := DispatcherEffect(net, a, s.edges[e], SenderAlive(s.workers[a.src], e), s.ctl, c).value;
    var t := ApplyDispatcher(s, e, a.dst, f);
    DispatcherKeepsControl(net, s, e, c);
    WaitingAfter(s.workers, a.dst, t.workers[a.dst]);
    forall k | 0 <= k < |net.arcs| ensures EdgeHolds(net, t, k) {
      assert EdgeHolds(net, s, k);
      if k == e {
        DispatcherKeepsEdge(net, e, s.edges[e], s.workers[a.src], s.workers[a.dst], s.ctl, c);
      } else {
        BumpKeepsEdge(net, s, a.dst, f.bumps, f.ctl, k);
      }
    }
    forall m | 0 <= m < net.nodes ensures WorkerOk(net, m, t.workers[m], t.ctl) {
      assert WorkerOk(net, m, s.workers[m], s.ctl);
    }
  }

  lemma SweepKeepsInv(net: Net, s: State)
    requires WellFormed(net) && Inv(net, s) && !s.ctl.closer.Idle? && !s.ctl.closer.Done?
    ensures Inv(net, ApplySweep(net, s))
  {
    var t := ApplySweep(net, s);
    assert Waiting(t.workers) == Waiting(s.workers);
    forall e | 0 <= e < |net.arcs| ensures EdgeHolds(net, t, e) {
      assert EdgeHolds(net, s, e);
      var a := net.arcs[e];
      SweepKeepsWake(net, e, s.edges[e], s.workers[a.dst], s.ctl);
      SweepKeepsSignals(net, e, s.edges[e], s.workers[a.src], s.ctl, if SweepWakes(net, s.ctl, a.src) then 1 else 0);
      SweepKeepsRest(net, e, s.edges[e], s.workers[a.src], s.ctl, if SweepWakes(net, s.ctl, a.src) then 1 else 0);
    }
    forall m | 0 <= m < net.nodes ensures WorkerOk(net, m, t.workers[m], t.ctl) {
      assert WorkerOk(net, m, s.workers[m], s.ctl);
    }
  }

  lemma StopKeepsInv(net: Net, s: State)
    requires WellFormed(net) && Inv(net, s) && !s.ctl.aborted
    ensures Inv(net, s.(ctl := Install(s.ctl, net.shutdownMode)))
  {
    var t := s.(ctl := Install(s.ctl, net.shutdownMode));
    forall e | 0 <= e < |net.arcs| ensures EdgeHolds(net, t, e) {
      assert EdgeHolds(net, s, e);
      AbortKeepsEdge(net, e, s.edges[e], s.workers[net.arcs[e].src], s.workers[net.arcs[e].dst], s.ctl,
                     net.shutdownMode);
    }
    forall m | 0 <= m < net.nodes ensures WorkerOk(net, m, t.workers[m], t.ctl) {
      assert WorkerOk(net, m, s.workers[m], s.ctl);
    }
  }

  /** The invariant is inductive. */
  lemma StepKeepsInv(net: Net, s: State, a: Action)
    requires WellFormed(net) && Inv(net, s) && Step(net, s, a).Some?
    ensures Inv(net, Step(net, s, a).value)
  {
    match a
    case WorkerAct(n, c) => WorkerKeepsInv(net, s, n, c);
    case DispatcherAct(e, c) => DispatcherKeepsInv(net, s, e, c);
    case SweepAct => SweepKeepsInv(net, s);
    case StopAct => StopKeepsInv(net, s);
  }

  /** Every state of every run satisfies the invariant. */
  lemma {:induction false} RunKeepsInv(net: Net, run: seq<State>, i: nat)
    requires WellFormed(net) && IsRun(net, run) && i < |run|
    ensures Inv(net, run[i])
  {
    if i == 0 {
      InitialOk(net);
    } else {
      RunKeepsInv(net, run, i - 1);
      assert Linked(net, run, i);
      var a :| Step(net, run[i - 1], a) == Some(run[i]);
      StepKeepsInv(net, run[i - 1], a);
    }
  }
}
