/** What holds in every reachable state of the concurrent runtime. */
module RuntimeTheorems {
  import opened Optional
  import opened RuntimeModel
  import opened RuntimeInvariant
  import opened RuntimeSteps

  // ---------------------------------------------------------------- wake-ups are never lost

  /**
   A consumer parked on the generation it observed, with work waiting on an incoming
   edge, has a notification on its way from the very step that put the work there.
   */
  lemma NoLostWakeup(net: Net, run: seq<State>, i: nat, e: nat)
    requires WellFormed(net) && IsRun(net, run) && i < |run| && e < |net.arcs| && Shaped(net, run[i])
    requires var w := run[i].workers[net.arcs[e].dst]; w.pc.Parked? && w.wakeups == w.pc.seen
    requires run[i].edges[e].queue != [] || run[i].edges[e].signals != []
    ensures NotifyPending(e, run[i].edges[e], run[i].ctl)
  {
    RunKeepsInv(net, run, i);
    assert EdgeHolds(net, run[i], e);
  }

  /** A consumer parked without a timer while all its inputs are closed has a notification on its way. */
  lemma NoLostClose(net: Net, run: seq<State>, i: nat, n: nat)
    requires WellFormed(net) && IsRun(net, run) && i < |run| && n < net.nodes && Shaped(net, run[i])
    requires var w := run[i].workers[n]; w.pc.Parked? && w.wakeups == w.pc.seen && !w.tick
    requires forall e :: 0 <= e < |net.arcs| && net.arcs[e].dst == n ==>
               run[i].edges[e].queueClosed && run[i].edges[e].signalsClosed
    ensures exists e :: 0 <= e < |net.arcs| && net.arcs[e].dst == n && NotifyPending(e, run[i].edges[e], run[i].ctl)
  {
    RunKeepsInv(net, run, i);
    var open := run[i].workers[n].pc.open;
    assert WorkerOk(net, n, run[i].workers[n], run[i].ctl);
    assert EdgeHolds(net, run[i], open);
  }

  /** A producer asleep on a full queue is asleep for a reason, or the closing sweep is about to wake it. */
  lemma NoLostSpace(net: Net, run: seq<State>, i: nat, e: nat)
    requires WellFormed(net) && IsRun(net, run) && i < |run| && e < |net.arcs| && Shaped(net, run[i])
    requires run[i].edges[e].disp.Sleeping?
    ensures (|run[i].edges[e].queue| == net.arcs[e].capacity && !run[i].edges[e].queueClosed)
            || run[i].ctl.closer == WakeQueue(e)
  {
    RunKeepsInv(net, run, i);
    assert EdgeHolds(net, run[i], e);
  }

  // ---------------------------------------------------------------- the signal barrier

  ghost predicate BarrierPassed(net: Net, s: State, n: nat, signals: seq<Signal>)
    requires Shaped(net, s)
  {
    forall k :: 0 <= k < |net.arcs| && net.arcs[k].src == n ==> EndsWith(s.edges[k].accepted, signals)
  }

  predicate SendingFrames(pc: WorkerPc) {
    pc.TrySend? || pc.PendingSend?
  }

  /** Only its own producer, past the barrier, puts a frame batch into an edge's channel. */
  lemma BatchComesFromBarrier(net: Net, s: State, a: Action, t: State, e: nat)
    requires WellFormed(net) && Inv(net, s) && Shaped(net, t) && Step(net, s, a) == Some(t) && e < |net.arcs|
    requires s.edges[e].chan == [] && t.edges[e].chan != [] && t.edges[e].chan[0].FrameBatch?
    ensures var w := s.workers[net.arcs[e].src];
            && SendingFrames(w.pc) && e < |w.pc.out.batches|
            && t.edges[e].chan == [FrameBatch(w.pc.out.batches[e])]
  {
    assert EdgeHolds(net, s, e);
    match a {
      case WorkerAct(n, c) =>
        var pc := s.workers[n].pc;
        if IsScanning(pc) {
          ScanTouches(net, s, n, c, e);
        } else if !IsRouting(pc) {
          LifecycleTouches(net, s, n, c);
        } else if !SendingFrames(pc) {
          BarrierSendsSignals(net, s, n, c, e);
        } else {
          FramesSendBatch(net, s, n, e);
        }
      case DispatcherAct(k, c) =>
        DispatcherNeverSends(net, s, k, c);
      case SweepAct =>
      case StopAct =>
    }
  }

  lemma BarrierSendsSignals(net: Net, s: State, n: nat, c: Choice, e: nat)
    requires Ready(net, s) && n < net.nodes && e < |net.arcs|
    requires BarrierStep(net, s, n, c).Some? && s.edges[e].chan == []
    ensures var chan := EdgeAfter(s, BarrierStep(net, s, n, c).value, e).chan; chan == [] || chan[0].SignalBatch?
  {
  }

  lemma FramesSendBatch(net: Net, s: State, n: nat, e: nat)
    requires Ready(net, s) && n < net.nodes && e < |net.arcs| && FramesStep(net, s, n).Some? && s.edges[e].chan == []
    requires PcFits(net, n, s.workers[n])
    ensures var chan := EdgeAfter(s, FramesStep(net, s, n).value, e).chan;
            chan != [] ==> net.arcs[e].src == n && chan == [FrameBatch(s.workers[n].pc.out.batches[e])]
  {
  }

  lemma DispatcherNeverSends(net: Net, s: State, e: nat, c: PolicyChoice)
    requires Ready(net, s) && e < |net.arcs|
    requires DispatcherEffect(net, net.arcs[e], s.edges[e], SenderAlive(s.workers[net.arcs[e].src], e), s.ctl, c).Some?
    ensures var f := DispatcherEffect(net, net.arcs[e], s.edges[e], SenderAlive(s.workers[net.arcs[e].src], e),
                                      s.ctl, c).value;
            f.edge.chan == s.edges[e].chan || f.edge.chan == []
  {
  }

  /**
   Whenever a frame batch enters a channel, it belongs to the callback its producer is
   routing, and every outgoing edge's signal queue has by then accepted, last and in
   order, every signal of that callback.
   */
  lemma SignalsPrecedeFrames(net: Net, run: seq<State>, i: nat, e: nat)
    requires WellFormed(net) && IsRun(net, run) && i + 1 < |run| && e < |net.arcs|
    requires Shaped(net, run[i]) && Shaped(net, run[i + 1]) && run[i].edges[e].chan == []
    requires run[i + 1].edges[e].chan != [] && run[i + 1].edges[e].chan[0].FrameBatch?
    ensures var n := net.arcs[e].src;
            && n < net.nodes && SendingFrames(run[i].workers[n].pc)
            && e < |run[i].workers[n].pc.out.batches|
            && run[i + 1].edges[e].chan == [FrameBatch(run[i].workers[n].pc.out.batches[e])]
            && BarrierPassed(net, run[i], n, run[i].workers[n].pc.out.signals)
  {
    RunKeepsInv(net, run, i);
    var s, n := run[i], net.arcs[e].src;
    assert WellFormedArc(net, net.arcs[e]);
    assert Linked(net, run, i + 1);
    var a :| Step(net, s, a) == Some(run[i + 1]);
    BatchComesFromBarrier(net, s, a, run[i + 1], e);
    forall k | 0 <= k < |net.arcs| && net.arcs[k].src == n
      ensures EndsWith(s.edges[k].accepted, s.workers[n].pc.out.signals)
    {
      assert EdgeHolds(net, s, k);
    }
  }

  /** When some edge failed to accept the signals, the abort is installed and the producer turns to failing. */
  lemma FailedBarrierAborts(net: Net, run: seq<State>, i: nat, n: nat, c: Choice)
    requires WellFormed(net) && IsRun(net, run) && i < |run| && n < net.nodes && Shaped(net, run[i])
    requires run[i].workers[n].pc.ReasonCheck? && !BarrierPassed(net, run[i], n, run[i].workers[n].pc.out.signals)
    ensures run[i].ctl.aborted
    ensures Step(net, run[i], WorkerAct(n, c)).Some?
    ensures Step(net, run[i], WorkerAct(n, c)).value.workers[n].pc == Failing(false)
  {
    RunKeepsInv(net, run, i);
    var k :| 0 <= k < |net.arcs| && net.arcs[k].src == n
      && !EndsWith(run[i].edges[k].accepted, run[i].workers[n].pc.out.signals);
    assert EdgeHolds(net, run[i], k);
  }

  /** A producer that finds its dispatcher gone always finds the abort reason installed. */
  lemma ClosedDispatchHasReason(net: Net, run: seq<State>, i: nat, e: nat)
    requires WellFormed(net) && IsRun(net, run) && i < |run| && e < |net.arcs| && Shaped(net, run[i])
    requires SenderAlive(run[i].workers[net.arcs[e].src], e) && !ReceiverAlive(run[i].edges[e].disp)
    ensures run[i].ctl.aborted
  {
    RunKeepsInv(net, run, i);
    assert EdgeHolds(net, run[i], e);
  }

  // ---------------------------------------------------------------- nothing is left behind

  predicate AllExited(s: State) {
    && (forall n :: 0 <= n < |s.workers| ==> s.workers[n].pc.Exited?)
    && (forall e :: 0 <= e < |s.edges| ==> s.edges[e].disp.DExited?)
  }

  /** A worker that exits unprepared has left an abort reason behind. */
  lemma UnpreparedMeansAborted(net: Net, run: seq<State>, i: nat, n: nat)
    requires WellFormed(net) && IsRun(net, run) && i < |run| && n < net.nodes && Shaped(net, run[i])
    requires run[i].workers[n].pc.Exited? && !run[i].workers[n].prepared
    ensures run[i].ctl.aborted
  {
    RunKeepsInv(net, run, i);
    assert WorkerOk(net, n, run[i].workers[n], run[i].ctl);
  }

  // ---------------------------------------------------------------- deadlock freedom

  /** Some thread can take a step that is neither an external stop nor the expiry of a timer. */
  ghost predicate CanMove(net: Net, s: State)
    requires WellFormed(net) && Shaped(net, s)
  {
    exists a :: Internal(a) && Step(net, s, a).Some?
  }

  predicate Internal(a: Action) {
    !a.StopAct? && !(a.WorkerAct? && a.choice.TimerElapsed?)
  }

  /** A source waits for its next tick, or a consumer is parked with a tick deadline. */
  ghost predicate TimerPending(s: State) {
    exists n :: 0 <= n < |s.workers| && (s.workers[n].pc.Ticking? || (s.workers[n].pc.Parked? && s.workers[n].tick))
  }

  ghost predicate Stuck(net: Net, s: State)
    requires WellFormed(net) && Shaped(net, s)
  {
    !CanMove(net, s) && !TimerPending(s)
  }

  lemma NoStep(net: Net, s: State, a: Action)
    requires WellFormed(net) && Shaped(net, s) && !CanMove(net, s) && Internal(a)
    ensures Step(net, s, a).None?
  {
  }

  lemma SweepAtRest(net: Net, s: State)
    requires WellFormed(net) && Inv(net, s) && !CanMove(net, s)
    ensures s.ctl.closer == if s.ctl.aborted then Done else Idle
  {
    NoStep(net, s, SweepAct);
  }

  /** A stuck dispatcher is waiting for its producer, asleep on a full queue, or gone. */
  lemma StuckDispatcher(net: Net, s: State, e: nat)
    requires WellFormed(net) && Inv(net, s) && Stuck(net, s) && e < |net.arcs|
    ensures var es := s.edges[e];
            || (es.disp.Receiving? && es.chan == [] && SenderAlive(s.workers[net.arcs[e].src], e))
            || es.disp.Sleeping? || es.disp.DExited?
  {
    assert EdgeHolds(net, s, e);
    SweepAtRest(net, s);
    NoStep(net, s, DispatcherAct(e, PolicyDrop));
  }

  predicate BlockedOn(net: Net, s: State, n: nat, k: nat)
    requires Shaped(net, s) && n < net.nodes
  {
    && k < |net.arcs| && net.arcs[k].src == n && ReceiverAlive(s.edges[k].disp)
    && (s.edges[k].chan != [] || SignalBusy(s.edges[k].disp))
  }

  lemma StuckRouting(net: Net, s: State, n: nat) returns (k: nat)
    requires WellFormed(net) && Inv(net, s) && Stuck(net, s) && n < net.nodes && IsRouting(s.workers[n].pc)
    ensures BlockedOn(net, s, n, k)
  {
    var w := s.workers[n];
    NoStep(net, s, WorkerAct(n, Proceed));
    assert WorkerOk(net, n, w, s.ctl);
    if w.pc.AckWait? {
      k :| 0 <= k < |net.arcs| && net.arcs[k].src == n && (s.edges[k].ack.Outstanding? || s.edges[k].ack.Buffered?);
      NoStep(net, s, WorkerAct(n, TakeAck(k)));
      assert EdgeHolds(net, s, k);
    } else {
      k := w.pc.next;
    }
  }

  /** A stuck worker is held by the gate, by one of its outgoing channels, by its wake-up, or gone. */
  lemma StuckWorker(net: Net, s: State, n: nat)
    requires WellFormed(net) && Inv(net, s) && Stuck(net, s) && n < net.nodes
    ensures var w := s.workers[n];
            || (w.pc.Gated? && s.remaining != 0) || IsRouting(w.pc)
            || (w.pc.Parked? && w.wakeups == w.pc.seen && !w.tick) || w.pc.Exited?
  {
    SweepAtRest(net, s);
    NoStep(net, s, WorkerAct(n, Proceed));
    assert WorkerOk(net, n, s.workers[n], s.ctl);
  }

  lemma GateOpen(net: Net, s: State)
    requires WellFormed(net) && Inv(net, s) && Stuck(net, s)
    ensures s.remaining == 0
  {
    if s.remaining != 0 {
      var n :| n in Waiting(s.workers);
      StuckWorker(net, s, n);
      assert false;
    }
  }

  /**
   No dispatcher sleeps in a stuck state: its queue is full, so its consumer is not parked,
   so it is held by a dispatcher asleep strictly further down the topological order.
   */
  lemma NobodySleeps(net: Net, s: State, e: nat)
    requires WellFormed(net) && Inv(net, s) && Stuck(net, s) && e < |net.arcs|
    ensures !s.edges[e].disp.Sleeping?
    decreases net.nodes - net.arcs[e].dst
  {
    if s.edges[e].disp.Sleeping? {
      var d := net.arcs[e].dst;
      assert WellFormedArc(net, net.arcs[e]) && EdgeHolds(net, s, e);
      SweepAtRest(net, s);
      GateOpen(net, s);
      StuckWorker(net, s, d);
      assert IsRouting(s.workers[d].pc);
      var k := StuckRouting(net, s, d);
      StuckDispatcher(net, s, k);
      assert WellFormedArc(net, net.arcs[k]);
      NobodySleeps(net, s, k);
      assert false;
    }
  }

  lemma {:induction false} AllWorkersGone(net: Net, s: State, n: nat)
    requires WellFormed(net) && Inv(net, s) && Stuck(net, s) && n <= net.nodes
    ensures forall m :: 0 <= m < n ==> s.workers[m].pc.Exited?
  {
    if n > 0 {
      AllWorkersGone(net, s, n - 1);
      var w := s.workers[n - 1];
      SweepAtRest(net, s);
      GateOpen(net, s);
      StuckWorker(net, s, n - 1);
      if IsRouting(w.pc) {
        var k := StuckRouting(net, s, n - 1);
        StuckDispatcher(net, s, k);
        NobodySleeps(net, s, k);
        assert false;
      } else if w.pc.Parked? {
        var open := w.pc.open;
        assert WorkerOk(net, n - 1, w, s.ctl);
        assert WellFormedArc(net, net.arcs[open]) && EdgeHolds(net, s, open);
        StuckDispatcher(net, s, open);
        NobodySleeps(net, s, open);
        assert false;
      }
    }
  }

  /**
   Deadlock freedom: in every reachable state, for every mix of overflow policies and any
   acyclic graph, either every worker and dispatcher has exited, or some thread can take a
   step, or a tick timer is pending.
   */
  lemma DeadlockFree(net: Net, run: seq<State>, i: nat)
    requires WellFormed(net) && IsRun(net, run) && i < |run|
    ensures Shaped(net, run[i]) && (AllExited(run[i]) || CanMove(net, run[i]) || TimerPending(run[i]))
  {
    RunKeepsInv(net, run, i);
    var s := run[i];
    if Stuck(net, s) {
      AllWorkersGone(net, s, net.nodes);
      forall e | 0 <= e < |net.arcs| ensures s.edges[e].disp.DExited? {
        assert WellFormedArc(net, net.arcs[e]);
        StuckDispatcher(net, s, e);
        NobodySleeps(net, s, e);
      }
    }
  }
}
