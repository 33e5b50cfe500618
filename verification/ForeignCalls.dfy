/**
 What the two sides of the foreign driver see of each other, told by what its operations
 return: commands come out in the order they went in, controls in the order they were issued,
 completions as they were given, and a call in the domain's hands is never forgotten.
 */
module ForeignCalls {
  import opened Optional
  import opened ForeignDriver
  import opened ForeignRuns

  /**
   Commands accepted and commands handed to the domain, controls handed to it, completions
   accepted and completions taken, the calls in the domain's hands, the calls whose completion
   was accepted and not taken yet, the last sequence offered in strict order, and when each
   call was last accepted.
   */
  datatype Log = Log(
    submitted: seq<Command>,
    handed: seq<Command>,
    told: seq<Control>,
    answered: seq<Completion>,
    taken: seq<Completion>,
    out: set<nat>,
    pending: set<nat>,
    offered: Option<nat>,
    since: map<nat, nat>)

  const NO_LOG := Log([], [], [], [], [], {}, {}, None, map[])

  function Submitted(cfg: Config, log: Log, s: State, c: Command, now: nat): Log {
    var result := SubmitResult(cfg, s, c);
    log.(submitted := if result.Accepted? then log.submitted + [c] else log.submitted,
         since := if result.Accepted? then log.since[c.sequence := now] else log.since,
         offered := if cfg.strict && (result.Accepted? || result.Full?) then Some(c.sequence) else log.offered)
  }

  /** A command is in the domain's hands if its call was still open when it was handed out. */
  function Handed(log: Log, s: State): Log {
    match ReceiveResult(s)
    case Nothing => log
    case ControlItem(control) => log.(told := log.told + [control])
    case CommandItem(c) =>
      log.(handed := log.handed + [c], out := if c.sequence in s.live then log.out + {c.sequence} else log.out)
  }

  /** A completion ends the domain's work on its call if it fails it, or comes after the stop. */
  function Answered(cfg: Config, log: Log, s: State, c: Completion, failure: Option<Reason>): Log {
    var result := CompleteResult(cfg, s, c, failure);
    var answers := result.CompletionAccepted? && failure.None?;
    log.(answered := if answers then log.answered + [c] else log.answered,
         pending := if answers then log.pending + {c.sequence} else log.pending,
         out := if (result.CompletionAccepted? && failure.Some?) || s.stopping then log.out - {c.sequence} else log.out)
  }

  function TakenOne(log: Log, s: State): Log {
    if s.ready == [] then log
    else
      var q := s.ready[0].sequence;
      log.(taken := log.taken + [s.ready[0]], out := log.out - {q}, pending := log.pending - {q})
  }

  function Observed(cfg: Config, log: Log, s: State, op: Operation): Log {
    match op
    case Submit(c, now) => Submitted(cfg, log, s, c, now)
    case Receive => Handed(log, s)
    case Complete(c, failure) => Answered(cfg, log, s, c, failure)
    case Take => TakenOne(log, s)
    case Acknowledge(q) => if s.stopping then log.(out := log.out - {q}) else log
    case _ => log
  }

  /** Everything the two sides have seen after these operations. */
  function LogOf(cfg: Config, ops: seq<Operation>): Log {
    if ops == [] then NO_LOG
    else
      var before := ops[..|ops| - 1];
      Observed(cfg, LogOf(cfg, before), Execute(cfg, before).state, ops[|ops| - 1])
  }

  // ---------------------------------------------------------------- calls in the domain's hands

  function Dispatched(live: map<nat, Live>): set<nat> {
    set q | q in live && live[q].dispatched
  }

  lemma SubmitKeepsOut(cfg: Config, log: Log, s: State, c: Command, now: nat)
    requires log.out == Dispatched(s.live)
    ensures Submitted(cfg, log, s, c, now).out == Dispatched(AfterSubmit(cfg, s, c, now).live)
  {
  }

  lemma DispatchedMore(live: map<nat, Live>, q: nat)
    requires q in live
    ensures Dispatched(live[q := live[q].(dispatched := true)]) == Dispatched(live) + {q}
  {
  }

  lemma ReceiveKeepsOut(log: Log, s: State)
    requires log.out == Dispatched(s.live)
    ensures Handed(log, s).out == Dispatched(AfterReceive(s).live)
  {
    if s.controls == [] && s.commands != [] && s.commands[0].sequence in s.live {
      DispatchedMore(s.live, s.commands[0].sequence);
    }
  }

  lemma FailKeepsOut(s: State, reason: Reason)
    ensures Dispatched(AfterFail(s, reason).live) == Dispatched(s.live)
  {
  }

  lemma CompleteKeepsOut(cfg: Config, log: Log, s: State, c: Completion, failure: Option<Reason>)
    requires StopOk(s) && log.out == Dispatched(s.live)
    ensures Answered(cfg, log, s, c, failure).out == Dispatched(AfterComplete(cfg, s, c, failure).live)
  {
    var q := c.sequence;
    assert Dispatched(s.live - {q}) == Dispatched(s.live) - {q};
    if Fails(s, c, failure) { FailKeepsOut(Forget(s, q), failure.value); }
    else if q in s.live {
      assert Dispatched(s.live[q := s.live[q].(received := true)]) == Dispatched(s.live);
    }
  }

  lemma TakeKeepsOut(cfg: Config, log: Log, s: State)
    requires log.out == Dispatched(s.live)
    ensures TakenOne(log, s).out == Dispatched(AfterTake(cfg, s).live)
  {
    if s.ready != [] { TakeForgetsHead(cfg, s, AfterTake(cfg, s), s.ready[0].sequence); }
  }

  lemma AcknowledgeKeepsOut(log: Log, s: State, q: nat)
    requires StopOk(s) && log.out == Dispatched(s.live)
    ensures (if s.stopping then log.out - {q} else log.out) == Dispatched(AfterAcknowledge(s, q).live)
  {
    assert Dispatched(s.live - {q}) == Dispatched(s.live) - {q};
  }

  lemma StopKeepsOut(cfg: Config, s: State, op: Operation)
    requires op.Expire? || op.BeginStop? || op.BeginGracefulStop? || op.TakeReason?
    ensures Dispatched(Step(cfg, s, op).live) == Dispatched(s.live)
  {
    if op.Expire? { FailKeepsOut(s, DEADLINE_REASON); }
    if op.BeginStop? { FailKeepsOut(s, op.reason); }
  }

  lemma StepKeepsOut(cfg: Config, log: Log, s: State, op: Operation)
    requires StopOk(s) && log.out == Dispatched(s.live)
    ensures Observed(cfg, log, s, op).out == Dispatched(Step(cfg, s, op).live)
  {
    match op
    case Submit(c, now) => SubmitKeepsOut(cfg, log, s, c, now);
    case Receive => ReceiveKeepsOut(log, s);
    case Complete(c, failure) => CompleteKeepsOut(cfg, log, s, c, failure);
    case Take => TakeKeepsOut(cfg, log, s);
    case Acknowledge(q) => AcknowledgeKeepsOut(log, s, q);
    case _ => StopKeepsOut(cfg, s, op);
  }

  lemma {:induction false} OutIsDispatched(cfg: Config, ops: seq<Operation>)
    ensures LogOf(cfg, ops).out == Dispatched(Execute(cfg, ops).state.live)
  {
    if ops != [] {
      var before := ops[..|ops| - 1];
      OutIsDispatched(cfg, before);
      RunKeepsInv(cfg, before);
      StepKeepsOut(cfg, LogOf(cfg, before), Execute(cfg, before).state, ops[|ops| - 1]);
    }
  }

  /**
   A call whose command was handed out while it was open stays live until the domain is done
   with it; and after a stop, these are all the calls that are still waited for.
   */
  lemma HandedOutStaysLive(cfg: Config, ops: seq<Operation>)
    ensures LogOf(cfg, ops).out <= Execute(cfg, ops).state.live.Keys
    ensures Execute(cfg, ops).state.stopping ==> LogOf(cfg, ops).out == Execute(cfg, ops).state.live.Keys
  {
    OutIsDispatched(cfg, ops);
    RunKeepsInv(cfg, ops);
  }

  // ---------------------------------------------------------------- who is told to cancel

  function CancelsIn(controls: seq<Control>, q: nat): nat {
    multiset(controls)[Cancel(q)]
  }

  lemma FailCancels(s: State, reason: Reason, q: nat)
    requires StopOk(s)
    ensures CancelsIn(NewControls(s, AfterFail(s, reason)), q) ==
            if !s.stopping && q in AfterFail(s, reason).live then 1 else 0
  {
    FailIssues(s, reason, q);
  }

  lemma ExpireCancels(cfg: Config, s: State, now: nat, q: nat)
    requires StopOk(s)
    ensures CancelsIn(NewControls(s, AfterExpire(s, now)), q) ==
            if !s.stopping && AfterExpire(s, now).stopping && q in AfterExpire(s, now).live then 1 else 0
  {
    FailCancels(s, DEADLINE_REASON, q);
  }

  lemma CompleteCancels(cfg: Config, s: State, c: Completion, failure: Option<Reason>, q: nat)
    requires StopOk(s)
    ensures var t := AfterComplete(cfg, s, c, failure);
            CancelsIn(NewControls(s, t), q) == if !s.stopping && t.stopping && q in t.live then 1 else 0
  {
    if Fails(s, c, failure) {
      FailCancels(Forget(s, c.sequence), failure.value, q);
    } else {
      CompleteWithoutFailing(cfg, s, c, failure);
    }
  }

  lemma QuietCancels(cfg: Config, s: State, op: Operation, q: nat)
    requires Inv(cfg, s)
    requires op.Submit? || op.Receive? || op.Take? || op.Acknowledge? || op.BeginGracefulStop? || op.TakeReason?
    ensures var t := Step(cfg, s, op);
            CancelsIn(NewControls(s, t), q) == if !s.stopping && t.stopping && q in t.live then 1 else 0
  {
    if !op.TakeReason? { QuietControls(cfg, s, op); }
  }

  /** A step issues a Cancel for a call exactly if it stops the driver and the call is still live after it. */
  lemma StepCancels(cfg: Config, s: State, op: Operation, q: nat)
    requires Inv(cfg, s)
    ensures var t := Step(cfg, s, op);
            CancelsIn(NewControls(s, t), q) == if !s.stopping && t.stopping && q in t.live then 1 else 0
  {
    match op
    case Complete(c, failure) => CompleteCancels(cfg, s, c, failure, q);
    case Expire(now) => ExpireCancels(cfg, s, now, q);
    case BeginStop(reason) => FailCancels(s, reason, q);
    case _ => QuietCancels(cfg, s, op, q);
  }

  lemma AdvanceCancels(cfg: Config, r: Run, op: Operation, q: nat)
    requires Inv(cfg, r.state)
    ensures var u := Advance(cfg, r, op);
            CancelsIn(u.issued, q) == CancelsIn(r.issued, q)
              + if !r.state.stopping && u.state.stopping && q in u.state.live then 1 else 0
  {
    StepCancels(cfg, r.state, op, q);
    var added := NewControls(r.state, Step(cfg, r.state, op));
    assert multiset(r.issued + added) == multiset(r.issued) + multiset(added);
  }

  lemma {:induction false} NoCancelAfterStop(cfg: Config, r: Run, more: seq<Operation>, q: nat)
    requires Inv(cfg, r.state) && r.state.stopping
    ensures Inv(cfg, Continue(cfg, r, more).state) && Continue(cfg, r, more).state.stopping
    ensures CancelsIn(Continue(cfg, r, more).issued, q) == CancelsIn(r.issued, q)
    decreases |more|
  {
    if more != [] {
      var before := more[..|more| - 1];
      NoCancelAfterStop(cfg, r, before, q);
      var u := Continue(cfg, r, before);
      StepKeeps(cfg, u.state, more[|more| - 1]);
      StoppedStep(cfg, u, more[|more| - 1]);
      AdvanceCancels(cfg, u, more[|more| - 1], q);
    }
  }

  lemma CancelsAtStop(cfg: Config, ops: seq<Operation>, op: Operation, q: nat)
    requires !Execute(cfg, ops).state.stopping && Execute(cfg, ops + [op]).state.stopping
    ensures CancelsIn(Execute(cfg, ops + [op]).issued, q) == if q in Execute(cfg, ops + [op]).state.live then 1 else 0
  {
    assert (ops + [op])[..|ops|] == ops;
    RunKeepsInv(cfg, ops);
    RunKeepsCancels(cfg, ops);
    AdvanceCancels(cfg, Execute(cfg, ops), op, q);
  }

  /**
   The calls that are told to cancel, once, over any continuation: exactly those that are in the
   domain's hands when the driver stops, by whatever operation it does.
   */
  lemma StopCancelsWhatIsOut(cfg: Config, ops: seq<Operation>, op: Operation, more: seq<Operation>, q: nat)
    requires !Execute(cfg, ops).state.stopping && Execute(cfg, ops + [op]).state.stopping
    ensures CancelsIn(Continue(cfg, Execute(cfg, ops + [op]), more).issued, q) ==
            if q in LogOf(cfg, ops + [op]).out then 1 else 0
  {
    CancelsAtStop(cfg, ops, op, q);
    RunKeepsInv(cfg, ops + [op]);
    HandedOutStaysLive(cfg, ops + [op]);
    NoCancelAfterStop(cfg, Execute(cfg, ops + [op]), more, q);
  }

  // ---------------------------------------------------------------- first in, first out

  ghost predicate InOrder(cfg: Config, log: Log, r: Run) {
    && r.issued == log.told + r.state.controls
    && (!r.state.stopping ==> log.submitted == log.handed + r.state.commands)
    && (!r.state.stopping && !cfg.strict ==> log.answered == log.taken + r.state.ready)
  }

  lemma QueueMoves<T>(all: seq<T>, out: seq<T>, queue: seq<T>)
    requires all == out + queue && queue != []
    ensures all == (out + [queue[0]]) + queue[1..]
  {
    assert queue == [queue[0]] + queue[1..];
  }

  lemma ReceiveKeepsOrder(cfg: Config, log: Log, r: Run)
    requires StopOk(r.state) && InOrder(cfg, log, r)
    ensures InOrder(cfg, Observed(cfg, log, r.state, Receive), Advance(cfg, r, Receive))
  {
    var s := r.state;
    if s.controls != [] { QueueMoves(r.issued, log.told, s.controls); }
    else if s.commands != [] && !s.stopping { QueueMoves(log.submitted, log.handed, s.commands); }
    assert NewControls(s, AfterReceive(s)) == [];
  }

  lemma TakeKeepsOrder(cfg: Config, log: Log, r: Run)
    requires InOrder(cfg, log, r)
    ensures InOrder(cfg, Observed(cfg, log, r.state, Take), Advance(cfg, r, Take))
  {
    if r.state.ready != [] && !cfg.strict && !r.state.stopping {
      QueueMoves(log.answered, log.taken, r.state.ready);
    }
  }

  lemma SubmitKeepsOrder(cfg: Config, log: Log, r: Run, c: Command, now: nat)
    requires InOrder(cfg, log, r)
    ensures InOrder(cfg, Observed(cfg, log, r.state, Submit(c, now)), Advance(cfg, r, Submit(c, now)))
  {
    assert log.handed + (r.state.commands + [c]) == (log.handed + r.state.commands) + [c];
  }

  lemma ControlsKept(told: seq<Control>, r: Run, u: Run)
    requires r.issued == told + r.state.controls && u.issued == r.issued + NewControls(r.state, u.state)
    requires r.state.controls <= u.state.controls
    ensures u.issued == told + u.state.controls
  {
  }

  lemma FailGrowsControls(s: State, reason: Reason)
    ensures s.controls <= AfterFail(s, reason).controls
  {
    var tail := CancelsFor(ToCancel(s.live)) + [Abort(FirstReason(s, reason)), Stop];
    assert AfterFail(s, reason).controls == s.controls + tail;
  }

  /** A completion that fails nothing leaves commands and controls alone, and is buffered if accepted. */
  lemma CompleteLeaves(cfg: Config, s: State, c: Completion, failure: Option<Reason>, t: State)
    requires !Fails(s, c, failure) && t == AfterComplete(cfg, s, c, failure)
    ensures t.controls == s.controls && t.commands == s.commands && t.stopping == s.stopping
  {
  }

  lemma CompleteBuffers(cfg: Config, s: State, c: Completion, failure: Option<Reason>, t: State)
    requires !Fails(s, c, failure) && t == AfterComplete(cfg, s, c, failure) && !cfg.strict
    ensures t.ready == if CompleteResult(cfg, s, c, failure).CompletionAccepted? then s.ready + [c] else s.ready
  {
  }

  lemma CompleteKeepsOrder(cfg: Config, log: Log, r: Run, c: Completion, failure: Option<Reason>)
    requires StopOk(r.state) && InOrder(cfg, log, r)
    ensures InOrder(cfg, Observed(cfg, log, r.state, Complete(c, failure)), Advance(cfg, r, Complete(c, failure)))
  {
    var s, u := r.state, Advance(cfg, r, Complete(c, failure));
    if Fails(s, c, failure) {
      FailGrowsControls(Forget(s, c.sequence), failure.value);
    } else {
      CompleteLeaves(cfg, s, c, failure, u.state);
      if !cfg.strict { CompleteBuffers(cfg, s, c, failure, u.state); }
      assert log.taken + (s.ready + [c]) == (log.taken + s.ready) + [c];
    }
    ControlsKept(log.told, r, u);
  }

  lemma StopKeepsOrder(cfg: Config, log: Log, r: Run, op: Operation)
    requires InOrder(cfg, log, r)
    requires op.Expire? || op.BeginStop? || op.BeginGracefulStop? || op.TakeReason? || op.Acknowledge?
    ensures InOrder(cfg, Observed(cfg, log, r.state, op), Advance(cfg, r, op))
  {
    if op.Expire? { FailGrowsControls(r.state, DEADLINE_REASON); }
    if op.BeginStop? { FailGrowsControls(r.state, op.reason); }
    ControlsKept(log.told, r, Advance(cfg, r, op));
  }

  /**
   Controls reach the domain in the order they were issued; while the driver runs, commands
   reach it in the order they were submitted, each once and as submitted, and without strict
   ordering completions are taken in the order they were given.
   */
  lemma {:induction false} BothWaysInOrder(cfg: Config, ops: seq<Operation>)
    ensures InOrder(cfg, LogOf(cfg, ops), Execute(cfg, ops))
  {
    if ops != [] {
      var before, op := ops[..|ops| - 1], ops[|ops| - 1];
      var log, r := LogOf(cfg, before), Execute(cfg, before);
      BothWaysInOrder(cfg, before);
      RunKeepsInv(cfg, before);
      match op {
        case Submit(c, now) => SubmitKeepsOrder(cfg, log, r, c, now);
        case Receive => ReceiveKeepsOrder(cfg, log, r);
        case Complete(c, failure) => CompleteKeepsOrder(cfg, log, r, c, failure);
        case Take => TakeKeepsOrder(cfg, log, r);
        case _ => StopKeepsOrder(cfg, log, r, op);
      }
    }
  }

  /** No command is handed out while a control waits, and nothing is answered only if nothing waits. */
  lemma ControlsComeFirst(cfg: Config, ops: seq<Operation>)
    ensures var log, r := LogOf(cfg, ops), Execute(cfg, ops);
            && (ReceiveResult(r.state).ControlItem? <==> |log.told| < |r.issued|)
            && (ReceiveResult(r.state).ControlItem? ==> ReceiveResult(r.state).control == r.issued[|log.told|])
            && (!r.state.stopping ==>
                (ReceiveResult(r.state).CommandItem? <==> |log.handed| < |log.submitted|)
                && (ReceiveResult(r.state).CommandItem? ==>
                    ReceiveResult(r.state).command == log.submitted[|log.handed|]))
  {
    BothWaysInOrder(cfg, ops);
    RunKeepsInv(cfg, ops);
    RunKeepsCancels(cfg, ops);
  }

  /** How a stopping operation leaves the run. */
  predicate StoppedBy(op: Operation, r: Run) {
    match op
    case BeginStop(reason) => EndsWithReason(r, reason)
    case Expire(_) => EndsWithReason(r, DEADLINE_REASON)
    case Complete(_, failure) => failure.Some? && EndsWithReason(r, failure.value)
    case _ => op.BeginGracefulStop? && r.issued == [Stop] && r.state.abortReason.None?
  }

  lemma CompleteStops(cfg: Config, r: Run, c: Completion, failure: Option<Reason>)
    requires StopOk(r.state) && !r.state.stopping && AfterComplete(cfg, r.state, c, failure).stopping
    ensures StoppedBy(Complete(c, failure), Advance(cfg, r, Complete(c, failure)))
  {
    if Fails(r.state, c, failure) {
      FailEnds(r, Forget(r.state, c.sequence), failure.value, Advance(cfg, r, Complete(c, failure)));
    } else {
      CompleteLeaves(cfg, r.state, c, failure, AfterComplete(cfg, r.state, c, failure));
    }
  }

  lemma OthersStop(cfg: Config, r: Run, op: Operation)
    requires StopOk(r.state) && !r.state.stopping && r.issued == [] && !op.Complete? && Step(cfg, r.state, op).stopping
    ensures StoppedBy(op, Advance(cfg, r, op))
  {
    match op
    case BeginStop(reason) => FailEnds(r, r.state, reason, Advance(cfg, r, op));
    case Expire(_) => FailEnds(r, r.state, DEADLINE_REASON, Advance(cfg, r, op));
    case _ => OnlyGracefulStops(cfg, r.state, op);
  }

  /** The reason of a stop is that of the operation that stops the driver, and the domain is told it. */
  lemma StopTellsReason(cfg: Config, ops: seq<Operation>, op: Operation)
    requires !Execute(cfg, ops).state.stopping && Execute(cfg, ops + [op]).state.stopping
    ensures StoppedBy(op, Execute(cfg, ops + [op]))
  {
    var r := Execute(cfg, ops);
    assert (ops + [op])[..|ops|] == ops;
    RunKeepsInv(cfg, ops);
    RunKeepsCancels(cfg, ops);
    if op.Complete? { CompleteStops(cfg, r, op.completion, op.failure); } else { OthersStop(cfg, r, op); }
  }

  predicate EndsWithReason(r: Run, reason: Reason) {
    && r.state.abortReason == Some(reason) && |r.issued| >= 2
    && r.issued[|r.issued| - 2] == Abort(reason) && r.issued[|r.issued| - 1] == Stop
  }

  lemma FailEnds(r: Run, s: State, reason: Reason, u: Run)
    requires StopOk(r.state) && !r.state.stopping
    requires s.abortReason == r.state.abortReason && s.controls == r.state.controls
    requires u.state.abortReason == AfterFail(s, reason).abortReason
    requires u.issued == r.issued + NewControls(s, AfterFail(s, reason))
    ensures EndsWithReason(u, reason)
  {
    FailControls(s, reason);
  }

  lemma OnlyGracefulStops(cfg: Config, s: State, op: Operation)
    requires StopOk(s) && !s.stopping && !op.BeginStop? && !op.Expire? && !op.Complete?
    ensures Step(cfg, s, op).stopping ==> op.BeginGracefulStop? && NewControls(s, Step(cfg, s, op)) == [Stop]
    ensures op.BeginGracefulStop? ==> Step(cfg, s, op).abortReason == s.abortReason
  {
  }
}
