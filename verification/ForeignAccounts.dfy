/**
 When the foreign driver accepts: told by what was submitted, handed out, answered and taken
 so far, a call or a completion is accepted exactly if its side still has room for it.
 */
module ForeignAccounts {
  import opened Optional
  import opened FiniteSets
  import opened SmallestFirst
  import opened ForeignDriver
  import opened ForeignRuns
  import opened ForeignCalls

  // ---------------------------------------------------------------- what is buffered

  function Received(live: map<nat, Live>): set<nat> {
    set q | q in live && live[q].received
  }

  ghost predicate CompletionsOk(log: Log, s: State) {
    && |log.answered| == |log.taken| + |s.ready| + |s.ordered|
    && CompletionSum(log.answered) == CompletionSum(log.taken) + s.readyBytes + s.orderedBytes
    && multiset(log.answered) == multiset(log.taken) + multiset(s.ready) + multiset(s.ordered.Values)
    && log.pending == Received(s.live)
  }

  ghost predicate CommandsOk(cfg: Config, log: Log, s: State) {
    && CommandSum(log.submitted) == CommandSum(log.handed) + s.commandBytes
    && (cfg.strict ==> log.offered == s.lastStrict)
  }

  lemma ValuesWithout(items: map<nat, Completion>, q: nat)
    requires q in items && forall k :: k in items ==> items[k].sequence == k
    ensures multiset(items.Values) == multiset((items - {q}).Values) + multiset{items[q]}
    ensures |items - {q}| == |items| - 1
  {
    var rest := items - {q};
    assert rest.Keys == items.Keys - {q} && |rest.Keys| == |rest| && |items.Keys| == |items|;
    assert items[q] in items.Values;
    forall c ensures c in rest.Values <==> c in items.Values && c != items[q] {
      if c in items.Values && c != items[q] {
        var k :| k in items && items[k] == c;
        assert k in rest && rest[k] == c;
      }
    }
    assert rest.Values == items.Values - {items[q]};
  }

  lemma PromoteKeepsCompletions(log: Log, s: State)
    requires CompletionsOk(log, s) && s.orderedBytes == MapSum(s.ordered)
    requires forall k :: k in s.ordered ==> s.ordered[k].sequence == k
    ensures CompletionsOk(log, Promote(s))
  {
    if s.strictOrder != [] && s.strictOrder[0] in s.ordered {
      var q := s.strictOrder[0];
      ValuesWithout(s.ordered, q);
      MapSumRemove(s.ordered, q);
      assert multiset(s.ready + [s.ordered[q]]) == multiset(s.ready) + multiset{s.ordered[q]};
    }
  }

  function WithAnswer(log: Log, c: Completion): Log {
    log.(answered := log.answered + [c], pending := log.pending + {c.sequence})
  }

  lemma AnsweredMore(log: Log, c: Completion)
    ensures multiset(log.answered + [c]) == multiset(log.answered) + multiset{c}
    ensures CompletionSum(log.answered + [c]) == CompletionSum(log.answered) + c.bytes
  {
    CompletionSumAppend(log.answered, c);
  }

  lemma StoredKeepsCompletions(cfg: Config, log: Log, s: State, c: Completion)
    requires CompletionsOk(log, s) && Buffered(s) && !s.stopping
    requires c.sequence in s.live && !s.live[c.sequence].received
    ensures CompletionsOk(WithAnswer(log, c), Stored(s, c))
  {
    var q, t := c.sequence, Stored(s, c);
    AnsweredMore(log, c);
    assert q !in s.ordered && t.ordered - {q} == s.ordered;
    ValuesWithout(t.ordered, q);
    assert Received(t.live) == Received(s.live) + {q};
  }

  lemma ReadyKeepsCompletions(log: Log, s: State, c: Completion)
    requires CompletionsOk(log, s) && c.sequence in s.live
    ensures CompletionsOk(WithAnswer(log, c),
                          s.(live := s.live[c.sequence := s.live[c.sequence].(received := true)],
                             ready := s.ready + [c], readyBytes := s.readyBytes + c.bytes))
  {
    var q := c.sequence;
    AnsweredMore(log, c);
    assert multiset(s.ready + [c]) == multiset(s.ready) + multiset{c};
    assert Received(s.live[q := s.live[q].(received := true)]) == Received(s.live) + {q};
  }

  lemma BufferKeepsCompletions(cfg: Config, log: Log, s: State, c: Completion)
    requires Inv(cfg, s) && CompletionsOk(log, s) && !s.stopping && Bufferable(cfg, s, c)
    ensures CompletionsOk(WithAnswer(log, c), Buffer(cfg, s, c))
  {
    if cfg.strict {
      StoredKeepsCompletions(cfg, log, s, c);
      StoredBounds(cfg, s, c);
      StoredBuffers(cfg, s, c);
      PromoteKeepsCompletions(WithAnswer(log, c), Stored(s, c));
    } else {
      ReadyKeepsCompletions(log, s, c);
    }
  }

  lemma HeadMoves(taken: seq<Completion>, ready: seq<Completion>)
    requires ready != []
    ensures multiset(taken + [ready[0]]) + multiset(ready[1..]) == multiset(taken) + multiset(ready)
    ensures CompletionSum(taken + [ready[0]]) == CompletionSum(taken) + ready[0].bytes
    ensures CompletionSum(ready) == ready[0].bytes + CompletionSum(ready[1..])
  {
    CompletionSumAppend(taken, ready[0]);
    assert ready == [ready[0]] + ready[1..];
  }

  lemma PoppedState(s: State)
    requires s.ready != []
    ensures var t := Popped(s);
            && t.ready == s.ready[1..] && t.ordered == s.ordered && t.orderedBytes == s.orderedBytes
            && Received(t.live) == Received(s.live) - {s.ready[0].sequence}
            && (s.readyBytes >= s.ready[0].bytes ==> t.readyBytes == s.readyBytes - s.ready[0].bytes)
  {
    assert Received(s.live - {s.ready[0].sequence}) == Received(s.live) - {s.ready[0].sequence};
  }

  lemma PoppedKeepsCompletions(cfg: Config, log: Log, s: State)
    requires s.readyBytes == CompletionSum(s.ready) && CompletionsOk(log, s) && s.ready != []
    ensures CompletionsOk(TakenOne(log, s), Popped(s))
  {
    HeadMoves(log.taken, s.ready);
    PoppedState(s);
  }

  lemma TakeKeepsCompletions(cfg: Config, log: Log, s: State)
    requires Inv(cfg, s) && CompletionsOk(log, s) && !s.stopping
    ensures CompletionsOk(TakenOne(log, s), AfterTake(cfg, s))
  {
    if s.ready != [] {
      PoppedKeepsCompletions(cfg, log, s);
      PoppedKeeps(cfg, s);
      if cfg.strict { PromoteKeepsCompletions(TakenOne(log, s), Popped(s)); }
    }
  }

  // ---------------------------------------------------------------- every step of a running driver

  ghost predicate AccountsOk(cfg: Config, log: Log, s: State) {
    !s.stopping ==> CompletionsOk(log, s) && CommandsOk(cfg, log, s)
  }

  lemma SubmitKeepsCompletions(cfg: Config, log: Log, s: State, c: Command, now: nat)
    requires CompletionsOk(log, s)
    ensures CompletionsOk(Submitted(cfg, log, s, c, now), AfterSubmit(cfg, s, c, now))
  {
    assert c.sequence !in s.live ==>
        Received(s.live[c.sequence := Live(now + cfg.deadline, false, false, false)]) == Received(s.live);
  }

  lemma SubmitKeepsCommands(cfg: Config, log: Log, s: State, c: Command, now: nat)
    requires CommandsOk(cfg, log, s)
    ensures CommandsOk(cfg, Submitted(cfg, log, s, c, now), AfterSubmit(cfg, s, c, now))
  {
    CommandSumAppend(log.submitted, c);
  }

  lemma ReceivedStays(s: State)
    ensures Received(AfterReceive(s).live) == Received(s.live)
  {
  }

  lemma ReceiveLeavesCompletions(log: Log, s: State)
    ensures var l, t := Handed(log, s), AfterReceive(s);
            && l.answered == log.answered && l.taken == log.taken && l.pending == log.pending
            && t.ready == s.ready && t.readyBytes == s.readyBytes
            && t.ordered == s.ordered && t.orderedBytes == s.orderedBytes
  {
  }

  lemma ReceiveKeepsCompletions(log: Log, s: State)
    requires CompletionsOk(log, s)
    ensures CompletionsOk(Handed(log, s), AfterReceive(s))
  {
    ReceivedStays(s);
    ReceiveLeavesCompletions(log, s);
  }

  lemma ReceiveKeepsCommands(cfg: Config, log: Log, s: State)
    requires CommandsOk(cfg, log, s) && s.commandBytes == CommandSum(s.commands) && s.controls == []
    ensures CommandsOk(cfg, Handed(log, s), AfterReceive(s))
  {
    if s.commands != [] { CommandSumAppend(log.handed, s.commands[0]); }
  }

  lemma AnswersBuffer(cfg: Config, log: Log, s: State, c: Completion, failure: Option<Reason>)
    requires StopOk(s) && !s.stopping && !Fails(s, c, failure)
    ensures if CompleteResult(cfg, s, c, failure).CompletionAccepted?
            then failure.None? && Bufferable(cfg, s, c) && AfterComplete(cfg, s, c, failure) == Buffer(cfg, s, c)
            else AfterComplete(cfg, s, c, failure) == s.(lateTotal := AfterComplete(cfg, s, c, failure).lateTotal)
  {
  }

  lemma BufferKeepsCommands(cfg: Config, log: Log, s: State, c: Completion)
    requires CommandsOk(cfg, log, s) && c.sequence in s.live
    ensures CommandsOk(cfg, WithAnswer(log, c), Buffer(cfg, s, c))
  {
  }

  lemma CompleteKeepsAccounts(cfg: Config, log: Log, s: State, c: Completion, failure: Option<Reason>)
    requires CompletionsOk(log, s) && CommandsOk(cfg, log, s) && Inv(cfg, s) && !s.stopping && !Fails(s, c, failure)
    ensures CompletionsOk(Answered(cfg, log, s, c, failure), AfterComplete(cfg, s, c, failure))
    ensures CommandsOk(cfg, Answered(cfg, log, s, c, failure), AfterComplete(cfg, s, c, failure))
  {
    AnswersBuffer(cfg, log, s, c, failure);
    if CompleteResult(cfg, s, c, failure).CompletionAccepted? {
      BufferKeepsCompletions(cfg, log, s, c);
      BufferKeepsCommands(cfg, log, s, c);
    }
  }

  lemma TakeKeepsCommands(cfg: Config, log: Log, s: State)
    requires CommandsOk(cfg, log, s)
    ensures CommandsOk(cfg, TakenOne(log, s), AfterTake(cfg, s))
  {
  }

  lemma QuietKeepsAccounts(cfg: Config, s: State, op: Operation)
    requires Inv(cfg, s) && !Step(cfg, s, op).stopping && !s.stopping
    requires !op.Submit? && !op.Receive? && !op.Complete? && !op.Take?
    ensures Step(cfg, s, op) == s
  {
  }

  lemma StepKeepsAccounts(cfg: Config, log: Log, s: State, op: Operation)
    requires Inv(cfg, s) && AccountsOk(cfg, log, s)
    ensures AccountsOk(cfg, Observed(cfg, log, s, op), Step(cfg, s, op))
  {
    StoppingStays(cfg, s, op);
    if !Step(cfg, s, op).stopping {
      match op
      case Submit(c, now) =>
        SubmitKeepsCompletions(cfg, log, s, c, now);
        SubmitKeepsCommands(cfg, log, s, c, now);
      case Receive =>
        ReceiveKeepsCompletions(log, s);
        ReceiveKeepsCommands(cfg, log, s);
      case Complete(c, failure) => CompleteKeepsAccounts(cfg, log, s, c, failure);
      case Take =>
        TakeKeepsCompletions(cfg, log, s);
        TakeKeepsCommands(cfg, log, s);
      case _ => QuietKeepsAccounts(cfg, s, op);
    }
  }

  lemma StoppingStays(cfg: Config, s: State, op: Operation)
    ensures s.stopping ==> Step(cfg, s, op).stopping
  {
  }

  lemma LastOperation(cfg: Config, ops: seq<Operation>)
    requires ops != []
    ensures var before, op := ops[..|ops| - 1], ops[|ops| - 1];
            && LogOf(cfg, ops) == Observed(cfg, LogOf(cfg, before), Execute(cfg, before).state, op)
            && Execute(cfg, ops).state == Step(cfg, Execute(cfg, before).state, op)
  {
  }

  lemma FreshAccounts(cfg: Config, log: Log, s: State)
    requires log == NO_LOG && s == FRESH
    ensures AccountsOk(cfg, log, s)
  {
    assert s.ordered.Values == {} && Received(s.live) == {};
  }

  lemma {:induction false} AccountsHold(cfg: Config, ops: seq<Operation>, log: Log, s: State)
    requires log == LogOf(cfg, ops) && s == Execute(cfg, ops).state
    ensures AccountsOk(cfg, log, s)
    decreases |ops|
  {
    if ops == [] {
      FreshAccounts(cfg, log, s);
    } else {
      var before, op := ops[..|ops| - 1], ops[|ops| - 1];
      var was, old_ := LogOf(cfg, before), Execute(cfg, before).state;
      AccountsHold(cfg, before, was, old_);
      RunKeepsInv(cfg, before);
      LastOperation(cfg, ops);
      StepKeepsAccounts(cfg, was, old_, op);
    }
  }

  /**
   While the driver runs, in either ordering, what the domain answered is what was taken and what
   is buffered, payloads included, and the byte accounts are those of commands and completions.
   */
  lemma AnswersAreConserved(cfg: Config, ops: seq<Operation>)
    ensures AccountsOk(cfg, LogOf(cfg, ops), Execute(cfg, ops).state)
  {
    AccountsHold(cfg, ops, LogOf(cfg, ops), Execute(cfg, ops).state);
  }

  // ---------------------------------------------------------------- what is accepted

  /** Accepted and not delivered yet. */
  ghost predicate OpenCall(r: Run, q: nat) {
    multiset(r.accepted)[q] > multiset(r.delivered)[q]
  }

  lemma OpenIsLive(r: Run, q: nat)
    requires multiset(r.accepted) == multiset(r.delivered) + multiset(r.state.live.Keys)
    ensures OpenCall(r, q) <==> q in r.state.live
    ensures |r.accepted| - |r.delivered| == |r.state.live|
  {
    assert multiset(r.accepted)[q] == multiset(r.delivered)[q] + multiset(r.state.live.Keys)[q];
    assert |multiset(r.accepted)| == |r.accepted| && |multiset(r.delivered)| == |r.delivered|;
    assert |multiset(r.state.live.Keys)| == |r.state.live.Keys| == |r.state.live|;
  }

  /** Calls open, and commands and their bytes submitted and not handed out, leave room for one more. */
  predicate CallRoom(cfg: Config, log: Log, r: Run, bytes: nat) {
    && |r.accepted| - |r.delivered| < cfg.maxInFlight
    && |log.submitted| - |log.handed| < cfg.commandCapacity
    && CommandSum(log.submitted) - CommandSum(log.handed) + bytes <= cfg.commandByteCapacity
  }

  lemma RoomIsCallRoom(cfg: Config, log: Log, r: Run, bytes: nat)
    requires Bounded(cfg, r.state) && CommandsOk(cfg, log, r.state)
    requires log.submitted == log.handed + r.state.commands && |r.accepted| - |r.delivered| == |r.state.live|
    ensures RoomFor(cfg, r.state, bytes) <==> CallRoom(cfg, log, r, bytes)
  {
  }

  /**
   A running driver accepts a command exactly if its call is not open, it is next in the strict
   order, and there is room: fewer calls open than allowed, fewer commands, and few enough
   bytes of them, submitted and not handed out.
   */
  lemma SubmitAcceptedIff(cfg: Config, ops: seq<Operation>, c: Command)
    requires !Execute(cfg, ops).state.stopping
    ensures var log, r := LogOf(cfg, ops), Execute(cfg, ops);
            SubmitResult(cfg, r.state, c).Accepted? <==>
              && !OpenCall(r, c.sequence) && CallRoom(cfg, log, r, c.bytes)
              && (cfg.strict && log.offered.Some? ==> c.sequence == NextStrict(log.offered.value))
  {
    var r := Execute(cfg, ops);
    RunKeepsInv(cfg, ops);
    AnswersAreConserved(cfg, ops);
    BothWaysInOrder(cfg, ops);
    CallsAreConserved(cfg, ops);
    OpenIsLive(r, c.sequence);
    RoomIsCallRoom(cfg, LogOf(cfg, ops), r, c.bytes);
  }

  /** There is room for a completion among those answered and not taken. */
  predicate AnswerRoom(cfg: Config, log: Log, bytes: nat) {
    && |log.answered| - |log.taken| < cfg.completionCapacity
    && CompletionSum(log.answered) - CompletionSum(log.taken) + bytes <= cfg.completionByteCapacity
  }

  lemma RoomIsAnswerRoom(cfg: Config, log: Log, s: State, bytes: nat)
    requires Bounded(cfg, s) && CompletionsOk(log, s)
    ensures CompletionRoom(cfg, s, bytes) <==> AnswerRoom(cfg, log, bytes)
  {
  }

  /**
   A running driver accepts a completion exactly if its call is open and unanswered, and it is a
   failure or there is room for it among the completions answered and not taken.
   */
  lemma CompleteAcceptedIff(cfg: Config, ops: seq<Operation>, c: Completion, failure: Option<Reason>)
    requires !Execute(cfg, ops).state.stopping
    ensures var log, r := LogOf(cfg, ops), Execute(cfg, ops);
            CompleteResult(cfg, r.state, c, failure).CompletionAccepted? <==>
              && OpenCall(r, c.sequence) && c.sequence !in log.pending
              && (failure.Some? || AnswerRoom(cfg, log, c.bytes))
  {
    var r := Execute(cfg, ops);
    RunKeepsInv(cfg, ops);
    AnswersAreConserved(cfg, ops);
    CallsAreConserved(cfg, ops);
    OpenIsLive(r, c.sequence);
    RoomIsAnswerRoom(cfg, LogOf(cfg, ops), r.state, c.bytes);
  }

  // ---------------------------------------------------------------- deadlines

  ghost predicate DueAt(cfg: Config, log: Log, s: State, q: nat)
    requires q in s.live
  {
    q in log.since && s.live[q].deadline == log.since[q] + cfg.deadline
  }

  ghost predicate DeadlinesOk(cfg: Config, log: Log, s: State) {
    forall q {:trigger DueAt(cfg, log, s, q)} :: q in s.live ==> DueAt(cfg, log, s, q)
  }

  /** Calls may go and may be marked, but keep their deadlines. */
  lemma FewerCalls(cfg: Config, log: Log, after: Log, s: State, t: State)
    requires DeadlinesOk(cfg, log, s) && after.since == log.since
    requires SameDeadlines(s, t)
    ensures DeadlinesOk(cfg, after, t)
  {
    forall q | q in t.live ensures DueAt(cfg, after, t, q) { assert DueAt(cfg, log, s, q); }
  }

  lemma SubmitKeepsDeadlines(cfg: Config, log: Log, s: State, c: Command, now: nat)
    requires DeadlinesOk(cfg, log, s)
    ensures DeadlinesOk(cfg, Submitted(cfg, log, s, c, now), AfterSubmit(cfg, s, c, now))
  {
    var after, t := Submitted(cfg, log, s, c, now), AfterSubmit(cfg, s, c, now);
    forall q | q in t.live ensures DueAt(cfg, after, t, q) {
      if q in s.live { assert DueAt(cfg, log, s, q); }
    }
  }

  /** The live calls after are among those before, with the same deadlines. */
  ghost predicate SameDeadlines(s: State, t: State) {
    forall q :: q in t.live ==> q in s.live && t.live[q].deadline == s.live[q].deadline
  }

  lemma FailKeepsDeadlines(s: State, reason: Reason)
    ensures SameDeadlines(s, AfterFail(s, reason))
  {
  }

  lemma BufferKeepsDeadlines(cfg: Config, s: State, c: Completion)
    requires c.sequence in s.live
    ensures SameDeadlines(s, Buffer(cfg, s, c))
  {
  }

  lemma CompleteKeepsDeadlines(cfg: Config, s: State, c: Completion, failure: Option<Reason>, t: State)
    requires t == AfterComplete(cfg, s, c, failure)
    ensures SameDeadlines(s, t)
  {
    if Fails(s, c, failure) { FailKeepsDeadlines(Forget(s, c.sequence), failure.value); }
    else if c.sequence in s.live { BufferKeepsDeadlines(cfg, s, c); }
  }

  lemma TakeKeepsDeadlines(cfg: Config, s: State)
    ensures SameDeadlines(s, AfterTake(cfg, s))
  {
    if s.ready != [] { TakeForgetsHead(cfg, s, AfterTake(cfg, s), s.ready[0].sequence); }
  }

  lemma OthersKeepDeadlines(cfg: Config, s: State, op: Operation, t: State)
    requires !op.Submit? && !op.Complete? && t == Step(cfg, s, op)
    ensures SameDeadlines(s, t)
  {
    if op.Expire? { FailKeepsDeadlines(s, DEADLINE_REASON); }
    else if op.BeginStop? { FailKeepsDeadlines(s, op.reason); }
    else if op.Take? { TakeKeepsDeadlines(cfg, s); }
  }

  lemma {:induction false} DeadlinesOnRun(cfg: Config, ops: seq<Operation>)
    ensures DeadlinesOk(cfg, LogOf(cfg, ops), Execute(cfg, ops).state)
  {
    if ops != [] {
      var before, op := ops[..|ops| - 1], ops[|ops| - 1];
      var log, s := LogOf(cfg, before), Execute(cfg, before).state;
      DeadlinesOnRun(cfg, before);
      if op.Submit? {
        SubmitKeepsDeadlines(cfg, log, s, op.command, op.now);
      } else {
        if op.Complete? { CompleteKeepsDeadlines(cfg, s, op.completion, op.failure, Step(cfg, s, op)); }
        else { OthersKeepDeadlines(cfg, s, op, Step(cfg, s, op)); }
        FewerCalls(cfg, log, LogOf(cfg, ops), s, Step(cfg, s, op));
      }
    }
  }

  lemma ExpiredIff(cfg: Config, log: Log, s: State, now: nat)
    requires DeadlinesOk(cfg, log, s)
    ensures forall q :: q in Expired(s, now) <==> q in s.live && q in log.since && log.since[q] + cfg.deadline <= now
  {
    forall q ensures q in Expired(s, now) <==> q in s.live && q in log.since && log.since[q] + cfg.deadline <= now {
      if q in s.live { assert DueAt(cfg, log, s, q); }
    }
  }

  lemma ExpiryStops(s: State, now: nat)
    requires !s.stopping
    ensures AfterExpire(s, now).stopping <==> exists q :: q in Expired(s, now)
  {
    if Expired(s, now) != {} {
      var q :| q in Expired(s, now);
    }
  }

  /** Time stops a running driver exactly if some open call was accepted at least a call's deadline ago. */
  lemma ExpireStopsIff(cfg: Config, ops: seq<Operation>, now: nat)
    requires !Execute(cfg, ops).state.stopping
    ensures var log, r := LogOf(cfg, ops), Execute(cfg, ops);
            Step(cfg, r.state, Expire(now)).stopping <==>
            exists q :: OpenCall(r, q) && q in log.since && log.since[q] + cfg.deadline <= now
  {
    var log, r := LogOf(cfg, ops), Execute(cfg, ops);
    DeadlinesOnRun(cfg, ops);
    CallsAreConserved(cfg, ops);
    forall q: nat ensures OpenCall(r, q) <==> q in r.state.live { OpenIsLive(r, q); }
    ExpiredIff(cfg, log, r.state, now);
    ExpiryStops(r.state, now);
  }

  // ---------------------------------------------------------------- totals

  /** How many completions were answered as late so far, and how many calls were found expired. */
  datatype Totals = Totals(late: nat, expired: nat)

  function TotalsAfter(cfg: Config, t: Totals, s: State, op: Operation): Totals {
    match op
    case Complete(c, failure) =>
      if CompleteResult(cfg, s, c, failure).LateDiscarded? then t.(late := t.late + 1) else t
    case Expire(now) => t.(expired := t.expired + |set q | q in s.live && s.live[q].deadline <= now|)
    case _ => t
  }

  function TotalsOf(cfg: Config, ops: seq<Operation>): Totals {
    if ops == [] then Totals(0, 0)
    else
      var before := ops[..|ops| - 1];
      TotalsAfter(cfg, TotalsOf(cfg, before), Execute(cfg, before).state, ops[|ops| - 1])
  }

  function CancelCount(controls: seq<Control>): nat {
    if controls == [] then 0
    else CancelCount(controls[..|controls| - 1]) + (if controls[|controls| - 1].Cancel? then 1 else 0)
  }

  lemma {:induction false} CancelsJoin(a: seq<Control>, b: seq<Control>)
    ensures CancelCount(a + b) == CancelCount(a) + CancelCount(b)
  {
    if b == [] {
      assert a + b == a;
    } else {
      assert (a + b)[..|a + b| - 1] == a + b[..|b| - 1];
      CancelsJoin(a, b[..|b| - 1]);
    }
  }

  lemma {:induction false} CancelsForCount(sequences: set<nat>)
    ensures CancelCount(CancelsFor(sequences)) == |sequences|
    decreases |sequences|
  {
    if sequences != {} {
      var m := Least(sequences);
      CancelsForCount(sequences - {m});
      CancelsJoin([Cancel(m)], CancelsFor(sequences - {m}));
      assert [Cancel(m)][..0] == [];
    }
  }

  lemma FailCounts(s: State, reason: Reason)
    ensures CancelCount(NewControls(s, AfterFail(s, reason))) == |ToCancel(s.live)|
  {
    var why := FirstReason(s, reason);
    FailControls(s, reason);
    CancelsForCount(ToCancel(s.live));
    CancelsJoin(CancelsFor(ToCancel(s.live)), [Abort(why), Stop]);
    assert [Abort(why)][..0] == [] && CancelCount([Abort(why)]) == 0;
    assert [Abort(why), Stop][..1] == [Abort(why)] && CancelCount([Abort(why), Stop]) == 0;
  }

  /** How many completions a step answers as late, and how many calls it finds due. */
  function LateNow(cfg: Config, s: State, op: Operation): nat {
    if op.Complete? && CompleteResult(cfg, s, op.completion, op.failure).LateDiscarded? then 1 else 0
  }

  function DueNow(s: State, op: Operation): nat {
    if op.Expire? then |Expired(s, op.now)| else 0
  }

  predicate AddsTotals(cfg: Config, s: State, op: Operation, t: State) {
    && t.cancellationTotal == s.cancellationTotal + CancelCount(NewControls(s, t)) + DueNow(s, op)
    && t.lateTotal == s.lateTotal + LateNow(cfg, s, op)
  }

  lemma ExpireCounts(cfg: Config, s: State, now: nat)
    ensures AddsTotals(cfg, s, Expire(now), AfterExpire(s, now))
  {
    FailCounts(s, DEADLINE_REASON);
  }

  lemma BeginStopCounts(cfg: Config, s: State, reason: Reason)
    ensures AddsTotals(cfg, s, BeginStop(reason), Step(cfg, s, BeginStop(reason)))
  {
    FailCounts(s, reason);
  }

  lemma OtherStopCounts(cfg: Config, s: State, op: Operation, t: State)
    requires t == Step(cfg, s, op) && (op.BeginGracefulStop? || op.TakeReason?)
    ensures AddsTotals(cfg, s, op, t)
  {
    GracefulQuiet(s);
  }

  lemma CompleteCounts(cfg: Config, s: State, c: Completion, failure: Option<Reason>, t: State)
    requires t == AfterComplete(cfg, s, c, failure)
    ensures AddsTotals(cfg, s, Complete(c, failure), t)
  {
    if Fails(s, c, failure) { FailCounts(Forget(s, c.sequence), failure.value); }
    else { CompleteQuiet(cfg, s, c, failure, t); }
  }

  /** A step adds its own to both totals. */
  lemma StepCounts(cfg: Config, s: State, op: Operation, t: State)
    requires Inv(cfg, s) && t == Step(cfg, s, op)
    ensures AddsTotals(cfg, s, op, t)
  {
    if op.Complete? { CompleteCounts(cfg, s, op.completion, op.failure, t); }
    else if op.Submit? || op.Receive? || op.Take? || op.Acknowledge? { QuietTotals(cfg, s, op, t); }
    else if op.Expire? { ExpireCounts(cfg, s, op.now); }
    else if op.BeginStop? { BeginStopCounts(cfg, s, op.reason); }
    else { OtherStopCounts(cfg, s, op, t); }
  }

  lemma GracefulQuiet(s: State)
    ensures CancelCount(NewControls(s, AfterGraceful(s))) == 0
  {
    assert [Stop][..0] == [];
    assert (s.controls + [Stop])[|s.controls|..] == [Stop];
  }

  lemma CompleteQuiet(cfg: Config, s: State, c: Completion, failure: Option<Reason>, t: State)
    requires !Fails(s, c, failure) && t == AfterComplete(cfg, s, c, failure)
    ensures NewControls(s, t) == [] && t.cancellationTotal == s.cancellationTotal
    ensures t.lateTotal == s.lateTotal + (if CompleteResult(cfg, s, c, failure).LateDiscarded? then 1 else 0)
  {
  }

  lemma QuietTotals(cfg: Config, s: State, op: Operation, t: State)
    requires Inv(cfg, s) && (op.Submit? || op.Receive? || op.Take? || op.Acknowledge?) && t == Step(cfg, s, op)
    ensures NewControls(s, t) == [] && t.cancellationTotal == s.cancellationTotal && t.lateTotal == s.lateTotal
  {
    QuietControls(cfg, s, op);
  }

  predicate TotalsAgree(t: Totals, r: Run) {
    r.state.lateTotal == t.late && r.state.cancellationTotal == CancelCount(r.issued) + t.expired
  }

  lemma TotalsNext(cfg: Config, t: Totals, r: Run, op: Operation)
    requires Inv(cfg, r.state) && TotalsAgree(t, r)
    ensures TotalsAgree(TotalsAfter(cfg, t, r.state, op), Advance(cfg, r, op))
  {
    var u := Advance(cfg, r, op);
    StepCounts(cfg, r.state, op, u.state);
    CancelsJoin(r.issued, NewControls(r.state, u.state));
    assert op.Expire? ==>
        Expired(r.state, op.now) == set q | q in r.state.live && r.state.live[q].deadline <= op.now;
  }

  /** The driver's totals: late completions, and Cancel controls together with the calls each expiry finds due. */
  lemma {:induction false} TotalsAreExact(cfg: Config, ops: seq<Operation>)
    ensures TotalsAgree(TotalsOf(cfg, ops), Execute(cfg, ops))
  {
    if ops != [] {
      var before := ops[..|ops| - 1];
      TotalsAreExact(cfg, before);
      RunKeepsInv(cfg, before);
      TotalsNext(cfg, TotalsOf(cfg, before), Execute(cfg, before), ops[|ops| - 1]);
    }
  }
}
