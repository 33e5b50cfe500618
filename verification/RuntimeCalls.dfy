/**
 Which callbacks the concurrent runtime makes: none before every node has prepared, one for
 every start of a source, every frame and signal received and every tick that fires, and a
 failing one aborts the run.
 */
module RuntimeCalls {
  import opened Optional
  import opened RuntimeModel
  import opened RuntimeInvariant
  import opened RuntimeSteps
  import opened RuntimeTheorems
  import opened RuntimeFlow

  // ---------------------------------------------------------------- the log of one node

  /**
   How often a source was started, ticks fired and frames and signals were received; how often a
   callback returned or failed, and how often one failed; and whether a tick is asked for that
   has not fired.
   */
  datatype NodeLog = NodeLog(starts: nat, ticks: nat, frames: nat, signals: nat, calls: nat, failures: nat, asked: bool)

  const NO_CALLS := NodeLog(0, 0, 0, 0, 0, 0, false)

  /** A prepared source passes the gate of a run that was not cancelled. */
  predicate Starts(net: Net, s: State, n: nat)
    requires WellFormed(net) && Shaped(net, s) && n < net.nodes
  {
    s.workers[n].pc.Starting? && net.source[n] && s.workers[n].prepared && !s.ctl.cancelled
  }

  /** The timer of a tick asked for fires, while a source waits for it or a consumer looks at it. */
  predicate Fires(net: Net, log: NodeLog, s: State, n: nat, c: Choice)
    requires WellFormed(net) && Shaped(net, s) && n < net.nodes
  {
    var pc := s.workers[n].pc;
    c.TimerElapsed? && ((pc.Ticking? && !s.ctl.cancelled) || (pc.TickCheck? && log.asked))
  }

  predicate ReceivesOne(net: Net, s: State, n: nat, c: Choice)
    requires WellFormed(net) && Shaped(net, s) && n < net.nodes
  {
    exists e: nat :: e < |net.arcs| && net.arcs[e].dst == n && Receives(net, s, WorkerAct(n, c), e)
  }

  predicate HearsOne(net: Net, s: State, n: nat, c: Choice)
    requires WellFormed(net) && Shaped(net, s) && n < net.nodes
  {
    exists e: nat :: e < |net.arcs| && net.arcs[e].dst == n && Hears(net, s, WorkerAct(n, c), e)
  }

  predicate FailsNow(net: Net, s: State, n: nat, c: Choice)
    requires WellFormed(net) && Shaped(net, s) && n < net.nodes
  {
    || (s.workers[n].pc.Preparing? && c.CallFails?)
    || (s.workers[n].pc.Calling? && !Emits(net, s, WorkerAct(n, c), n))
  }

  /** A source asks anew in every callback, a consumer's request stands until it fires. */
  function Asking(net: Net, log: NodeLog, s: State, n: nat, c: Choice): bool
    requires WellFormed(net) && Shaped(net, s) && n < net.nodes
  {
    if Fires(net, log, s, n, c) then false
    else if Emits(net, s, WorkerAct(n, c), n) then c.out.tick || (!net.source[n] && log.asked)
    else log.asked
  }

  function Count(happens: bool): nat {
    if happens then 1 else 0
  }

  function NodeObserved(net: Net, log: NodeLog, s: State, n: nat, c: Choice): NodeLog
    requires WellFormed(net) && Shaped(net, s) && n < net.nodes
  {
    NodeLog(
      log.starts + Count(Starts(net, s, n)),
      log.ticks + Count(Fires(net, log, s, n, c)),
      log.frames + Count(ReceivesOne(net, s, n, c)),
      log.signals + Count(HearsOne(net, s, n, c)),
      log.calls + Count(s.workers[n].pc.Calling?),
      log.failures + Count(FailsNow(net, s, n, c)),
      Asking(net, log, s, n, c))
  }

  /** Everything observed of node `n` in the first `i` steps. */
  ghost function NodeLogAt(net: Net, run: seq<State>, acts: seq<Action>, i: nat, n: nat): NodeLog
    requires WellFormed(net) && IsTrace(net, run, acts) && i < |run| && n < net.nodes
  {
    if i == 0 then NO_CALLS
    else
      var log := NodeLogAt(net, run, acts, i - 1, n);
      assert Taken(net, run, acts, i - 1);
      if acts[i - 1].WorkerAct? && acts[i - 1].n == n
      then NodeObserved(net, log, run[i - 1], n, acts[i - 1].choice) else log
  }

  // ---------------------------------------------------------------- the accounts

  /** Not yet past the gate. */
  predicate BeforeGate(w: Worker) {
    NotArrived(w) || w.pc.Gated? || w.pc.Starting?
  }

  predicate CallsOk(net: Net, n: nat, log: NodeLog, w: Worker, ctl: Control)
    requires WellFormed(net) && n < net.nodes
  {
    && log.starts + log.ticks + log.frames + log.signals == log.calls + Count(w.pc.Calling?)
    && log.asked == w.tick
    && (log.failures > 0 ==> ctl.aborted || w.pc.Failing?)
    && (BeforeGate(w) ==> log.starts == 0)
    && (!ctl.aborted && !BeforeGate(w) ==> log.starts == Count(net.source[n]))
    && (!ctl.aborted && (w.pc.Leaving? || w.pc.Exited?) ==> !log.asked)
  }

  lemma VisitIsUnique(net: Net, s: State, n: nat, c: Choice)
    requires WellFormed(net) && Shaped(net, s) && n < net.nodes
    ensures ReceivesOne(net, s, n, c) <==>
            var w := s.workers[n];
            && w.pc.ScanFrames? && w.pc.off < |net.arcs|
            && var e := Visit(|net.arcs|, w.cursor, w.pc.off); net.arcs[e].dst == n && s.edges[e].queue != []
    ensures HearsOne(net, s, n, c) <==>
            var w := s.workers[n];
            && w.pc.ScanSignals? && w.pc.off < |net.arcs|
            && var e := Visit(|net.arcs|, w.cursor, w.pc.off); net.arcs[e].dst == n && s.edges[e].signals != []
  {
    var w := s.workers[n];
    if (w.pc.ScanFrames? || w.pc.ScanSignals?) && w.pc.off < |net.arcs| {
      var e := Visit(|net.arcs|, w.cursor, w.pc.off);
      assert Visits(net, w, w.pc.off, e);
      if net.arcs[e].dst == n {
        assert w.pc.ScanFrames? && s.edges[e].queue != [] ==> Receives(net, s, WorkerAct(n, c), e);
        assert w.pc.ScanSignals? && s.edges[e].signals != [] ==> Hears(net, s, WorkerAct(n, c), e);
      }
    }
  }

  lemma ScanKeepsCalls(net: Net, s: State, n: nat, c: Choice, f: Effect, log: NodeLog)
    requires Ready(net, s) && n < net.nodes && ScanStep(net, s, n, c) == Some(f) && IsScanning(s.workers[n].pc)
    requires CallsOk(net, n, log, s.workers[n], s.ctl)
    ensures CallsOk(net, n, NodeObserved(net, log, s, n, c), f.worker, f.ctl)
  {
    VisitIsUnique(net, s, n, c);
  }

  /** Routing observes nothing, and ends in a wait, a scan or the exit. */
  lemma RoutingObserves(net: Net, s: State, n: nat, c: Choice, log: NodeLog)
    requires WellFormed(net) && Shaped(net, s) && n < net.nodes && IsRouting(s.workers[n].pc)
    ensures NodeObserved(net, log, s, n, c) == log
  {
    VisitIsUnique(net, s, n, c);
  }

  lemma RoutingMoves(net: Net, s: State, n: nat, c: Choice, f: Effect)
    requires WellFormed(net) && Inv(net, s) && n < net.nodes && IsRouting(s.workers[n].pc)
    requires WorkerEffect(net, s, n, c) == Some(f)
    ensures f.ctl == s.ctl && f.worker == s.workers[n].(pc := f.worker.pc) && Routing(net, n, f.worker.pc)
  {
    assert WorkerOk(net, n, s.workers[n], s.ctl);
    if SendingFrames(s.workers[n].pc) { FramesMoves(net, s, n); FramesKeepControl(net, s, n); }
    else { BarrierMoves(net, s, n, c); BarrierKeepsControl(net, s, n, c); }
  }

  lemma FramesRest(net: Net, s: State, n: nat, f: Effect)
    requires WellFormed(net) && Shaped(net, s) && n < net.nodes && FramesStep(net, s, n) == Some(f)
    ensures f.worker.pc.Leaving? ==> !s.workers[n].tick
  {
  }

  lemma RoutingKeepsCalls(net: Net, s: State, n: nat, c: Choice, f: Effect, log: NodeLog)
    requires WellFormed(net) && Inv(net, s) && n < net.nodes && IsRouting(s.workers[n].pc)
    requires WorkerEffect(net, s, n, c) == Some(f) && CallsOk(net, n, log, s.workers[n], s.ctl)
    ensures CallsOk(net, n, NodeObserved(net, log, s, n, c), f.worker, f.ctl)
  {
    RoutingObserves(net, s, n, c, log);
    RoutingMoves(net, s, n, c, f);
    if SendingFrames(s.workers[n].pc) { FramesRest(net, s, n, f); }
  }

  lemma LifeKeepsCalls(net: Net, s: State, n: nat, c: Choice, f: Effect, log: NodeLog)
    requires WellFormed(net) && Inv(net, s) && n < net.nodes && LifecycleStep(net, s, n, c) == Some(f)
    requires CallsOk(net, n, log, s.workers[n], s.ctl)
    ensures CallsOk(net, n, NodeObserved(net, log, s, n, c), f.worker, f.ctl)
  {
    assert WorkerOk(net, n, s.workers[n], s.ctl);
    VisitIsUnique(net, s, n, c);
  }

  // ---------------------------------------------------------------- every run

  lemma WorkerKeepsCalls(net: Net, s: State, n: nat, c: Choice, f: Effect, log: NodeLog)
    requires WellFormed(net) && Inv(net, s) && n < net.nodes && WorkerEffect(net, s, n, c) == Some(f)
    requires CallsOk(net, n, log, s.workers[n], s.ctl)
    ensures CallsOk(net, n, NodeObserved(net, log, s, n, c), f.worker, f.ctl)
  {
    var pc := s.workers[n].pc;
    if IsRouting(pc) { RoutingKeepsCalls(net, s, n, c, f, log); }
    else if IsScanning(pc) { ScanKeepsCalls(net, s, n, c, f, log); }
    else { LifeKeepsCalls(net, s, n, c, f, log); }
  }

  /** Steps of others may wake the worker, and may abort the run. */
  lemma OthersKeepCalls(net: Net, n: nat, log: NodeLog, w: Worker, v: Worker, ctl: Control, next: Control)
    requires WellFormed(net) && n < net.nodes && CallsOk(net, n, log, w, ctl)
    requires v.pc == w.pc && v.tick == w.tick && (ctl.aborted ==> next.aborted)
    ensures CallsOk(net, n, log, v, next)
  {
  }

  lemma OthersLeaveWorker(net: Net, s: State, a: Action, t: State, n: nat)
    requires WellFormed(net) && Shaped(net, s) && Step(net, s, a) == Some(t) && n < net.nodes
    requires !(a.WorkerAct? && a.n == n)
    ensures Shaped(net, t) && t.workers[n].pc == s.workers[n].pc && t.workers[n].tick == s.workers[n].tick
  {
  }

  lemma NextCalls(net: Net, s: State, a: Action, t: State, n: nat, log: NodeLog)
    requires WellFormed(net) && Inv(net, s) && Step(net, s, a) == Some(t) && n < net.nodes
    requires s.ctl.aborted ==> t.ctl.aborted
    requires CallsOk(net, n, log, s.workers[n], s.ctl)
    ensures Shaped(net, t)
    ensures CallsOk(net, n, if a.WorkerAct? && a.n == n then NodeObserved(net, log, s, n, a.choice) else log,
                    t.workers[n], t.ctl)
  {
    if a.WorkerAct? && a.n == n {
      WorkerKeepsCalls(net, s, n, a.choice, WorkerEffect(net, s, n, a.choice).value, log);
    } else {
      OthersLeaveWorker(net, s, a, t, n);
      OthersKeepCalls(net, n, log, s.workers[n], t.workers[n], s.ctl, t.ctl);
    }
  }

  lemma {:induction false} CallsOnTrace(net: Net, run: seq<State>, acts: seq<Action>, i: nat, n: nat)
    requires WellFormed(net) && IsTrace(net, run, acts) && i < |run| && n < net.nodes
    ensures Shaped(net, run[i]) && CallsOk(net, n, NodeLogAt(net, run, acts, i, n), run[i].workers[n], run[i].ctl)
  {
    if i > 0 {
      CallsOnTrace(net, run, acts, i - 1, n);
      TraceIsRun(net, run, acts);
      RunKeepsInv(net, run, i - 1);
      AbortLasts(net, run, i);
      assert Taken(net, run, acts, i - 1);
      NextCalls(net, run[i - 1], acts[i - 1], run[i], n, NodeLogAt(net, run, acts, i - 1, n));
    }
  }

  /**
   On every run, aborted or not, each callback of a node has a cause of its own: the start of a
   source, a tick that fired, a frame or a signal received; every cause leads to a callback; and
   a callback that fails, in preparation or later, aborts the run.
   */
  lemma CallbacksHaveCauses(net: Net, run: seq<State>, acts: seq<Action>, i: nat, n: nat)
    requires WellFormed(net) && IsTrace(net, run, acts) && i < |run| && n < net.nodes && Shaped(net, run[i])
    ensures var log, pc := NodeLogAt(net, run, acts, i, n), run[i].workers[n].pc;
            && log.starts + log.ticks + log.frames + log.signals == log.calls + Count(pc.Calling?)
            && (log.failures > 0 ==> run[i].ctl.aborted || pc.Failing?)
  {
    CallsOnTrace(net, run, acts, i, n);
  }

  /** A run that ends without an abort has started every source once, failed nowhere and left no tick asked for. */
  lemma CleanRunCallsAll(net: Net, run: seq<State>, acts: seq<Action>, i: nat, n: nat)
    requires WellFormed(net) && IsTrace(net, run, acts) && i < |run| && n < net.nodes && Shaped(net, run[i])
    requires AllExited(run[i]) && !run[i].ctl.aborted
    ensures var log := NodeLogAt(net, run, acts, i, n);
            && log.starts == (if net.source[n] then 1 else 0) && log.failures == 0 && !log.asked
            && log.calls == log.starts + log.ticks + log.frames + log.signals
  {
    CallsOnTrace(net, run, acts, i, n);
  }

  // ---------------------------------------------------------------- the gate

  predicate PastGate(w: Worker) {
    !NotArrived(w) && !w.pc.Gated?
  }

  predicate GateAt(net: Net, s: State, n: nat)
    requires Shaped(net, s) && n < net.nodes
  {
    PastGate(s.workers[n]) ==> s.remaining == 0
  }

  ghost predicate GateOk(net: Net, s: State)
    requires Shaped(net, s)
  {
    forall n: nat {:trigger GateAt(net, s, n)} :: n < net.nodes ==> GateAt(net, s, n)
  }

  lemma WorkerPassesGate(net: Net, s: State, n: nat, c: Choice, f: Effect)
    requires WellFormed(net) && Inv(net, s) && n < net.nodes && WorkerEffect(net, s, n, c) == Some(f)
    ensures f.remaining <= s.remaining
    ensures PastGate(f.worker) ==> PastGate(s.workers[n]) || s.remaining == 0
  {
    var pc := s.workers[n].pc;
    assert WorkerOk(net, n, s.workers[n], s.ctl);
    if SendingFrames(pc) { FramesMoves(net, s, n); }
    else if IsRouting(pc) { BarrierMoves(net, s, n, c); }
    else if IsScanning(pc) { ScanMoves(net, s, n, c); }
  }

  lemma StepKeepsGate(net: Net, s: State, a: Action, t: State)
    requires WellFormed(net) && Inv(net, s) && GateOk(net, s) && Step(net, s, a) == Some(t)
    ensures Shaped(net, t) && GateOk(net, t)
  {
    StepKeepsShape(net, s, a);
    forall n: nat | n < net.nodes ensures GateAt(net, t, n) {
      assert GateAt(net, s, n);
      if a.WorkerAct? { WorkerPassesGate(net, s, a.n, a.choice, WorkerEffect(net, s, a.n, a.choice).value); }
    }
  }

  lemma FollowsKeepsGate(net: Net, s: State, t: State)
    requires WellFormed(net) && Inv(net, s) && GateOk(net, s) && Follows(net, s, t)
    ensures Shaped(net, t) && GateOk(net, t)
  {
    var a :| Step(net, s, a) == Some(t);
    StepKeepsGate(net, s, a, t);
  }

  lemma {:induction false} GateOnRun(net: Net, run: seq<State>, i: nat)
    requires WellFormed(net) && IsRun(net, run) && i < |run|
    ensures Shaped(net, run[i]) && GateOk(net, run[i])
  {
    if i > 0 {
      GateOnRun(net, run, i - 1);
      RunKeepsInv(net, run, i - 1);
      assert Linked(net, run, i);
      FollowsKeepsGate(net, run[i - 1], run[i]);
    }
  }

  /** No worker passes the gate before every node's preparation has been answered: well, or by an abort. */
  lemma NobodyStartsEarly(net: Net, run: seq<State>, i: nat, n: nat, m: nat)
    requires WellFormed(net) && IsRun(net, run) && i < |run| && n < net.nodes && m < net.nodes
    requires Shaped(net, run[i]) && PastGate(run[i].workers[n])
    ensures !NotArrived(run[i].workers[m]) && (run[i].workers[m].prepared || run[i].ctl.aborted)
  {
    GateOnRun(net, run, i);
    RunKeepsInv(net, run, i);
    assert GateAt(net, run[i], n) && WorkerOk(net, m, run[i].workers[m], run[i].ctl);
    assert m !in Waiting(run[i].workers);
  }

  // ---------------------------------------------------------------- fairness among inputs

  /** An input a frame or signal was just taken from is visited last in the next scan. */
  lemma TakenEdgeGoesLast(net: Net, run: seq<State>, acts: seq<Action>, i: nat, n: nat, e: nat)
    requires WellFormed(net) && IsTrace(net, run, acts) && i < |acts| && n < net.nodes && e < |net.arcs|
    requires net.arcs[e].dst == n && acts[i].WorkerAct? && acts[i].n == n
    requires Shaped(net, run[i]) && Shaped(net, run[i + 1])
    requires Receives(net, run[i], acts[i], e) || Hears(net, run[i], acts[i], e)
    ensures run[i + 1].workers[n].pc.Calling?
    ensures Distance(|net.arcs|, run[i + 1].workers[n].cursor, e) == |net.arcs| - 1
  {
    assert Taken(net, run, acts, i);
    NextAfter(e, |net.arcs|);
  }

  lemma NextAfter(e: nat, size: nat)
    requires e < size
    ensures (e + 1) % size == if e + 1 == size then 0 else e + 1
  {
  }
}
