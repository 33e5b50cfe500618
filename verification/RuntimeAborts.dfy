/**
 Why the concurrent runtime aborts: only because it was stopped from outside, or because a
 callback or a policy failed, an aborting queue overflowed, or a signal queue was full.
 */
module RuntimeAborts {
  import opened Optional
  import opened QueuePolicies
  import opened RuntimeModel
  import opened RuntimeInvariant
  import opened RuntimeSteps
  import opened RuntimeTheorems
  import opened RuntimeFlow
  import opened RuntimeCalls

  /** What goes wrong at an edge when its dispatcher acts. */
  predicate EdgeFails(net: Net, s: State, e: nat, c: PolicyChoice)
    requires Shaped(net, s) && e < |net.arcs|
  {
    var es := s.edges[e];
    || (es.disp.Applying? && es.disp.batch != [] && c.PolicyFails?)
    || (es.disp.Pushing? && !HasRoom(net.arcs[e], es) && net.arcs[e].overflow.AbortRun?)
    || (es.disp.Signalling? && es.disp.done < |es.disp.all| && (c.PolicyFails? || |es.signals| >= net.signalCapacity))
  }

  /** An action that gives a reason to abort. */
  predicate IsCause(net: Net, s: State, a: Action)
    requires WellFormed(net) && Shaped(net, s)
  {
    match a
    case StopAct => true
    case SweepAct => false
    case WorkerAct(n, c) => n < net.nodes && FailsNow(net, s, n, c)
    case DispatcherAct(e, c) => e < |net.arcs| && EdgeFails(net, s, e, c)
  }

  predicate CalmEdge(es: Edge) {
    !es.disp.DFailing? && !es.disp.DClosing? && (es.queueClosed || es.signalsClosed ==> !ReceiverAlive(es.disp))
  }

  predicate CalmWorker(w: Worker) {
    !w.pc.Failing? && !w.pc.Closing?
  }

  /** Nothing is failing, and queues are closed only by their own dispatchers on the way out. */
  predicate Calm(net: Net, s: State)
    requires Shaped(net, s)
  {
    && !s.ctl.aborted
    && (forall n :: 0 <= n < net.nodes ==> CalmWorker(s.workers[n]))
    && (forall e :: 0 <= e < |net.arcs| ==> CalmEdge(s.edges[e]))
  }

  lemma FramesStayCalm(net: Net, s: State, n: nat, f: Effect)
    requires WellFormed(net) && Shaped(net, s) && n < net.nodes && FramesStep(net, s, n) == Some(f)
    requires PcFits(net, n, s.workers[n])
    requires forall k :: 0 <= k < |net.arcs| && net.arcs[k].src == n ==> Open(s.edges[k])
    ensures CalmWorker(f.worker) && f.ctl == s.ctl
  {
  }

  lemma LifeStaysCalm(net: Net, s: State, n: nat, c: Choice, f: Effect)
    requires WellFormed(net) && Shaped(net, s) && n < net.nodes && LifecycleStep(net, s, n, c) == Some(f)
    requires CalmWorker(s.workers[n]) && !FailsNow(net, s, n, c)
    ensures CalmWorker(f.worker) && f.ctl == s.ctl
  {
  }

  lemma WorkerStaysCalm(net: Net, s: State, n: nat, c: Choice, f: Effect)
    requires WellFormed(net) && Inv(net, s) && n < net.nodes && WorkerEffect(net, s, n, c) == Some(f)
    requires Calm(net, s) && !FailsNow(net, s, n, c)
    ensures CalmWorker(f.worker) && f.ctl == s.ctl
  {
    var pc := s.workers[n].pc;
    assert WorkerOk(net, n, s.workers[n], s.ctl);
    if SendingFrames(pc) {
      ReceiversAreAlive(net, s, n);
      FramesStayCalm(net, s, n, f);
    } else if IsRouting(pc) {
      BarrierMoves(net, s, n, c);
      BarrierKeepsControl(net, s, n, c);
      BarrierGoesOn(net, s, n, c, f);
    } else if IsScanning(pc) {
      ScanMoves(net, s, n, c);
    } else {
      LifeStaysCalm(net, s, n, c, f);
    }
  }

  lemma WorkerLeavesEdgesCalm(net: Net, s: State, n: nat, c: Choice, f: Effect, e: nat)
    requires WellFormed(net) && Inv(net, s) && n < net.nodes && e < |net.arcs| && WorkerEffect(net, s, n, c) == Some(f)
    requires CalmEdge(s.edges[e])
    ensures CalmEdge(EdgeAfter(s, f, e))
  {
    var pc := s.workers[n].pc;
    assert WorkerOk(net, n, s.workers[n], s.ctl) && EdgeHolds(net, s, e);
    if SendingFrames(pc) { FramesTouches(net, s, n, e); }
    else if IsRouting(pc) { BarrierTouches(net, s, n, c, e); }
    else if IsScanning(pc) { ScanTouches(net, s, n, c, e); }
    else { LifecycleTouches(net, s, n, c); }
  }

  lemma DispatcherStaysCalm(net: Net, s: State, e: nat, c: PolicyChoice, f: EdgeEffect)
    requires WellFormed(net) && Inv(net, s) && e < |net.arcs| && CalmEdge(s.edges[e]) && !s.ctl.aborted
    requires var alive := SenderAlive(s.workers[net.arcs[e].src], e);
             DispatcherEffect(net, net.arcs[e], s.edges[e], alive, s.ctl, c) == Some(f)
    requires !EdgeFails(net, s, e, c)
    ensures CalmEdge(f.edge) && f.ctl == s.ctl
  {
    assert EdgeHolds(net, s, e);
  }

  lemma WorkerActStaysCalm(net: Net, s: State, n: nat, c: Choice, t: State)
    requires WellFormed(net) && Inv(net, s) && Calm(net, s) && Step(net, s, WorkerAct(n, c)) == Some(t)
    requires !IsCause(net, s, WorkerAct(n, c))
    ensures Shaped(net, t) && Calm(net, t)
  {
    var f := WorkerEffect(net, s, n, c).value;
    WorkerStaysCalm(net, s, n, c, f);
    forall e | 0 <= e < |net.arcs| ensures CalmEdge(t.edges[e]) {
      WorkerLeavesEdgesCalm(net, s, n, c, f, e);
      assert t.edges[e] == EdgeAfter(s, f, e);
    }
  }

  lemma StepStaysCalm(net: Net, s: State, a: Action, t: State)
    requires WellFormed(net) && Inv(net, s) && Calm(net, s) && Step(net, s, a) == Some(t) && !IsCause(net, s, a)
    ensures Shaped(net, t) && Calm(net, t)
  {
    match a
    case WorkerAct(n, c) => WorkerActStaysCalm(net, s, n, c, t);
    case DispatcherAct(e, c) =>
      var alive := SenderAlive(s.workers[net.arcs[e].src], e);
      DispatcherStaysCalm(net, s, e, c, DispatcherEffect(net, net.arcs[e], s.edges[e], alive, s.ctl, c).value);
    case SweepAct =>
    case StopAct =>
  }

  ghost predicate CauseAt(net: Net, run: seq<State>, acts: seq<Action>, j: nat)
    requires WellFormed(net) && |run| == |acts| + 1
  {
    j < |acts| && Shaped(net, run[j]) && IsCause(net, run[j], acts[j])
  }

  lemma CalmNext(net: Net, run: seq<State>, acts: seq<Action>, i: nat)
    requires WellFormed(net) && IsTrace(net, run, acts) && i < |acts| && Shaped(net, run[i]) && Calm(net, run[i])
    requires !CauseAt(net, run, acts, i)
    ensures Shaped(net, run[i + 1]) && Calm(net, run[i + 1])
  {
    TraceIsRun(net, run, acts);
    RunKeepsInv(net, run, i);
    assert Taken(net, run, acts, i);
    StepStaysCalm(net, run[i], acts[i], run[i + 1]);
  }

  /** Without a cause nothing fails. */
  lemma {:induction false} CalmWithoutCause(net: Net, run: seq<State>, acts: seq<Action>, i: nat)
    requires WellFormed(net) && IsTrace(net, run, acts) && i < |run|
    requires forall j: nat :: j < i ==> !CauseAt(net, run, acts, j)
    ensures Shaped(net, run[i]) && Calm(net, run[i])
  {
    if i > 0 {
      CalmWithoutCause(net, run, acts, i - 1);
      CalmNext(net, run, acts, i - 1);
    }
  }

  /** Every abort has a cause: a stop from outside, a failing callback or policy, or an overflow that aborts. */
  lemma AbortsHaveCauses(net: Net, run: seq<State>, acts: seq<Action>, i: nat)
    requires WellFormed(net) && IsTrace(net, run, acts) && i < |run| && run[i].ctl.aborted
    ensures exists j: nat :: j < i && CauseAt(net, run, acts, j)
  {
    if forall j: nat :: j < i ==> !CauseAt(net, run, acts, j) { CalmWithoutCause(net, run, acts, i); }
  }
}
