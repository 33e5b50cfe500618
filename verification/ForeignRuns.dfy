/** What holds over every run of the foreign driver, for every order of operations and completions. */
module ForeignRuns {
  import opened Optional
  import opened SmallestFirst
  import opened ForeignDriver

  /** The driver's state together with what has happened: `issued` is every control ever queued. */
  datatype Run = Run(state: State, accepted: seq<nat>, delivered: seq<nat>, issued: seq<Control>, reasons: seq<Reason>)

  function NewControls(s: State, t: State): seq<Control> {
    if |t.controls| >= |s.controls| then t.controls[|s.controls|..] else []
  }

  function Advance(cfg: Config, r: Run, op: Operation): Run {
    var s, t := r.state, Step(cfg, r.state, op);
    Run(t,
      if op.Submit? && SubmitResult(cfg, s, op.command) == Accepted
      then r.accepted + [op.command.sequence] else r.accepted,
      if op.Take? && s.ready != [] then r.delivered + [s.ready[0].sequence] else r.delivered,
      r.issued + NewControls(s, t),
      if op.TakeReason? && !s.abortTaken && s.abortReason.Some? then r.reasons + [s.abortReason.value] else r.reasons)
  }

  function Continue(cfg: Config, r: Run, ops: seq<Operation>): Run
    decreases |ops|
  {
    if ops == [] then r else Advance(cfg, Continue(cfg, r, ops[..|ops| - 1]), ops[|ops| - 1])
  }

  function Execute(cfg: Config, ops: seq<Operation>): Run {
    Continue(cfg, Run(FRESH, [], [], [], []), ops)
  }

  // ---------------------------------------------------------------- release order and conservation

  /** While the driver runs, nothing accepted is lost or duplicated, and strict release is in order. */
  ghost predicate Balanced(cfg: Config, r: Run) {
    !r.state.stopping ==>
      && multiset(r.accepted) == multiset(r.delivered) + multiset(r.state.live.Keys)
      && (cfg.strict ==> r.accepted == r.delivered + r.state.strictOrder)
  }

  lemma DropKey(live: map<nat, Live>, q: nat)
    requires q in live
    ensures multiset(live.Keys) == multiset((live - {q}).Keys) + multiset{q}
  {
    assert (live - {q}).Keys == live.Keys - {q};
  }

  lemma CompleteKeepsKeys(cfg: Config, s: State, c: Completion, failure: Option<Reason>)
    requires StopOk(s)
    requires !AfterComplete(cfg, s, c, failure).stopping
    ensures var t := AfterComplete(cfg, s, c, failure);
            t.live.Keys == s.live.Keys && t.strictOrder == s.strictOrder && !s.stopping
  {
  }

  lemma QuietKeepsKeys(cfg: Config, s: State, op: Operation)
    requires StopOk(s) && (op.Receive? || op.TakeReason? || op.Acknowledge?) && !s.stopping
    ensures Step(cfg, s, op).live.Keys == s.live.Keys && Step(cfg, s, op).strictOrder == s.strictOrder
  {
    if op.Receive? {
      assert AfterReceive(s).live.Keys == s.live.Keys;
    } else if op.Acknowledge? {
      assert AfterAcknowledge(s, op.sequence) == s;
    }
  }

  lemma TakeForgetsHead(cfg: Config, s: State, t: State, q: nat)
    requires s.ready != [] && q == s.ready[0].sequence && t == AfterTake(cfg, s)
    ensures t.live == s.live - {q} && t.strictOrder == RemoveSequence(s.strictOrder, q) && t.stopping == s.stopping
  {
  }

  lemma ReadyHead(cfg: Config, s: State, q: nat)
    requires Buffered(s) && StrictOk(cfg, s) && s.ready != [] && q == s.ready[0].sequence
    ensures q in s.live && (cfg.strict ==> s.strictOrder != [] && s.strictOrder[0] == q)
  {
    assert s.ready[0] in s.ready && q in SequencesOf(s.ready);
  }

  /** Taking removes the ready head from the live calls and, in strict mode, from the front of the order. */
  lemma TakeRemovesHead(cfg: Config, s: State)
    requires Inv(cfg, s) && !s.stopping && s.ready != []
    ensures var t := AfterTake(cfg, s); var q := s.ready[0].sequence;
            && q in s.live && t.live == s.live - {q} && !t.stopping
            && (cfg.strict ==> s.strictOrder == [q] + t.strictOrder)
  {
    var q := s.ready[0].sequence;
    ReadyHead(cfg, s, q);
    TakeForgetsHead(cfg, s, AfterTake(cfg, s), q);
    HeadRemoved(s.strictOrder, q);
  }

  lemma HeadRemoved(order: seq<nat>, q: nat)
    ensures order != [] && order[0] == q ==> order == [q] + RemoveSequence(order, q)
  {
  }

  lemma TakeBalances(cfg: Config, r: Run, t: State)
    requires Balanced(cfg, r) && !r.state.stopping && r.state.ready != []
    requires var q := r.state.ready[0].sequence;
             && q in r.state.live && t.live == r.state.live - {q}
             && (cfg.strict ==> r.state.strictOrder == [q] + t.strictOrder)
    ensures Balanced(cfg, Run(t, r.accepted, r.delivered + [r.state.ready[0].sequence], r.issued, r.reasons))
  {
    var q := r.state.ready[0].sequence;
    DropKey(r.state.live, q);
    assert multiset(r.delivered + [q]) == multiset(r.delivered) + multiset{q};
    assert r.delivered + ([q] + t.strictOrder) == (r.delivered + [q]) + t.strictOrder;
  }

  lemma SubmitBalances(cfg: Config, r: Run, c: Command, now: nat)
    requires Inv(cfg, r.state) && Balanced(cfg, r)
    ensures Balanced(cfg, Advance(cfg, r, Submit(c, now)))
  {
    var s := r.state;
    if SubmitResult(cfg, s, c) == Accepted {
      var t := AfterSubmit(cfg, s, c, now);
      assert t.live.Keys == s.live.Keys + {c.sequence};
      AcceptBalances(r.accepted, r.delivered, s.live.Keys, s.strictOrder, c.sequence);
    }
  }

  lemma AcceptBalances(accepted: seq<nat>, delivered: seq<nat>, live: set<nat>, order: seq<nat>, q: nat)
    requires q !in live
    ensures multiset(accepted) == multiset(delivered) + multiset(live) ==>
              multiset(accepted + [q]) == multiset(delivered) + multiset(live + {q})
    ensures accepted == delivered + order ==> accepted + [q] == delivered + (order + [q])
  {
    assert multiset(live + {q}) == multiset(live) + multiset{q};
  }

  lemma AdvanceBalances(cfg: Config, r: Run, op: Operation)
    requires Inv(cfg, r.state) && Balanced(cfg, r)
    ensures Balanced(cfg, Advance(cfg, r, op))
  {
    if !Step(cfg, r.state, op).stopping {
      if op.Submit? {
        SubmitBalances(cfg, r, op.command, op.now);
      } else if op.Take? {
        if r.state.ready != [] {
          TakeRemovesHead(cfg, r.state);
          TakeBalances(cfg, r, AfterTake(cfg, r.state));
        }
      } else if op.Complete? {
        CompleteKeepsKeys(cfg, r.state, op.completion, op.failure);
      } else if op.Receive? || op.TakeReason? || op.Acknowledge? {
        QuietKeepsKeys(cfg, r.state, op);
      }
    }
  }

  lemma {:induction false} RunKeepsInv(cfg: Config, ops: seq<Operation>)
    ensures Inv(cfg, Execute(cfg, ops).state)
  {
    if ops != [] {
      RunKeepsInv(cfg, ops[..|ops| - 1]);
      StepKeeps(cfg, Execute(cfg, ops[..|ops| - 1]).state, ops[|ops| - 1]);
    }
  }

  lemma {:induction false} RunBalances(cfg: Config, ops: seq<Operation>)
    ensures Balanced(cfg, Execute(cfg, ops))
  {
    if ops != [] {
      var before := ops[..|ops| - 1];
      RunKeepsInv(cfg, before);
      RunBalances(cfg, before);
      AdvanceBalances(cfg, Execute(cfg, before), ops[|ops| - 1]);
    }
  }

  /**
   Strict release: while the driver is not stopping, the accepted sequences are exactly the
   delivered ones followed by the strict order, and the ready queue holds at most its head.
   */
  lemma StrictRelease(cfg: Config, ops: seq<Operation>)
    requires cfg.strict && !Execute(cfg, ops).state.stopping
    ensures var r := Execute(cfg, ops);
            && r.accepted == r.delivered + r.state.strictOrder
            && |r.state.ready| <= 1
            && (r.state.ready != [] ==>
                |r.delivered| < |r.accepted| && r.state.ready[0].sequence == r.accepted[|r.delivered|])
  {
    RunBalances(cfg, ops);
    RunKeepsInv(cfg, ops);
  }

  /** In either ordering, a running driver has delivered or still holds live each accepted call exactly once. */
  lemma CallsAreConserved(cfg: Config, ops: seq<Operation>)
    requires !Execute(cfg, ops).state.stopping
    ensures var r := Execute(cfg, ops); multiset(r.accepted) == multiset(r.delivered) + multiset(r.state.live.Keys)
  {
    RunBalances(cfg, ops);
  }

  // ---------------------------------------------------------------- stopping

  ghost predicate CancelsOk(r: Run) {
    && (!r.state.stopping ==> r.issued == [])
    && (forall q :: multiset(r.issued)[Cancel(q)] <= 1)
    && (r.state.stopping ==> forall q :: q in r.state.live ==> multiset(r.issued)[Cancel(q)] == 1)
    && |r.reasons| == (if r.state.abortTaken then 1 else 0)
    && (r.reasons != [] ==> r.state.abortReason == Some(r.reasons[0]))
  }

  lemma {:induction false} CancelsForOnce(sequences: set<nat>, q: nat)
    ensures multiset(CancelsFor(sequences))[Cancel(q)] == if q in sequences then 1 else 0
    decreases |sequences|
  {
    if sequences != {} {
      var m := Least(sequences);
      CancelsForOnce(sequences - {m}, q);
      assert CancelsFor(sequences) == [Cancel(m)] + CancelsFor(sequences - {m});
    }
  }

  lemma CountInParts(all: seq<Control>, cancels: seq<Control>, why: Reason, q: nat)
    requires all == cancels + [Abort(why), Stop]
    ensures multiset(all)[Cancel(q)] == multiset(cancels)[Cancel(q)]
  {
    assert multiset(all) == multiset(cancels) + multiset{Abort(why), Stop};
  }

  lemma FailControls(s: State, reason: Reason)
    ensures NewControls(s, AfterFail(s, reason)) == CancelsFor(ToCancel(s.live)) + [Abort(FirstReason(s, reason)), Stop]
  {
    var tail := CancelsFor(ToCancel(s.live)) + [Abort(FirstReason(s, reason)), Stop];
    assert AfterFail(s, reason).controls == s.controls + tail;
    assert (s.controls + tail)[|s.controls|..] == tail;
  }

  lemma FailIssues(s: State, reason: Reason, q: nat)
    requires StopOk(s)
    ensures multiset(NewControls(s, AfterFail(s, reason)))[Cancel(q)] ==
              if !s.stopping && q in s.live && s.live[q].dispatched then 1 else 0
  {
    FailControls(s, reason);
    CountInParts(NewControls(s, AfterFail(s, reason)), CancelsFor(ToCancel(s.live)), FirstReason(s, reason), q);
    CancelsForOnce(ToCancel(s.live), q);
  }

  lemma CancelsAfterFail(r: Run, s: State, reason: Reason, issued: seq<Control>)
    requires StopOk(r.state) && CancelsOk(r) && StopOk(s)
    requires s.stopping == r.state.stopping && s.controls == r.state.controls && s.live.Keys <= r.state.live.Keys
    requires forall q :: q in s.live ==> s.live[q] == r.state.live[q]
    requires s.abortTaken == r.state.abortTaken && s.abortReason == r.state.abortReason
    requires issued == r.issued + NewControls(s, AfterFail(s, reason))
    ensures CancelsOk(Run(AfterFail(s, reason), r.accepted, r.delivered, issued, r.reasons))
  {
    forall q ensures multiset(issued)[Cancel(q)] <= 1
      && (q in AfterFail(s, reason).live ==> multiset(issued)[Cancel(q)] == 1)
    {
      FailIssues(s, reason, q);
    }
  }

  /** A step that queues no control other than Stop, adds no live call after stop and moves no reason. */
  lemma NothingIssued(r: Run, t: State, accepted: seq<nat>, delivered: seq<nat>, issued: seq<Control>)
    requires CancelsOk(r)
    requires issued == r.issued || (t.stopping && issued == r.issued + [Stop])
    requires t.stopping ==> t.live.Keys <= r.state.live.Keys && (r.state.stopping || t.live == map[])
    requires r.state.stopping ==> t.stopping
    requires t.abortTaken == r.state.abortTaken && t.abortReason == r.state.abortReason
    ensures CancelsOk(Run(t, accepted, delivered, issued, r.reasons))
  {
    forall q ensures multiset(issued)[Cancel(q)] == multiset(r.issued)[Cancel(q)] {
      assert multiset(r.issued + [Stop]) == multiset(r.issued) + multiset{Stop};
    }
  }

  /** Operations that queue no cancellation. */
  lemma QuietKeepsCancels(cfg: Config, r: Run, op: Operation)
    requires Inv(cfg, r.state) && CancelsOk(r)
    requires op.Submit? || op.Receive? || op.Take? || op.Acknowledge? || op.BeginGracefulStop?
    ensures CancelsOk(Advance(cfg, r, op))
  {
    var s, t, u := r.state, Step(cfg, r.state, op), Advance(cfg, r, op);
    QuietControls(cfg, s, op);
    NothingIssued(r, t, u.accepted, u.delivered, u.issued);
  }

  lemma SubmitControls(cfg: Config, s: State, c: Command, now: nat, t: State)
    requires t == AfterSubmit(cfg, s, c, now) && StopOk(s)
    ensures NewControls(s, t) == [] && t.stopping == s.stopping && (t.stopping ==> t.live.Keys <= s.live.Keys)
    ensures t.abortTaken == s.abortTaken && t.abortReason == s.abortReason
  {
  }

  lemma TakeControls(cfg: Config, s: State, t: State)
    requires t == AfterTake(cfg, s)
    ensures NewControls(s, t) == [] && t.stopping == s.stopping && t.live.Keys <= s.live.Keys
    ensures t.abortTaken == s.abortTaken && t.abortReason == s.abortReason
  {
    if s.ready != [] { TakeForgetsHead(cfg, s, t, s.ready[0].sequence); }
  }

  lemma QuietControls(cfg: Config, s: State, op: Operation)
    requires Inv(cfg, s)
    requires op.Submit? || op.Receive? || op.Take? || op.Acknowledge? || op.BeginGracefulStop?
    ensures var t := Step(cfg, s, op);
            && NewControls(s, t) == (if op.BeginGracefulStop? && GracefulAllowed(s) then [Stop] else [])
            && (t.stopping <==> s.stopping || (op.BeginGracefulStop? && GracefulAllowed(s)))
            && (t.stopping ==> t.live.Keys <= s.live.Keys)
            && t.abortTaken == s.abortTaken && t.abortReason == s.abortReason
  {
    if op.Submit? { SubmitControls(cfg, s, op.command, op.now, Step(cfg, s, op)); }
    else if op.Take? { TakeControls(cfg, s, Step(cfg, s, op)); }
  }

  lemma ExpireKeepsCancels(cfg: Config, r: Run, now: nat)
    requires Inv(cfg, r.state) && CancelsOk(r)
    ensures CancelsOk(Advance(cfg, r, Expire(now)))
  {
    var s, t := r.state, AfterExpire(r.state, now);
    if Expired(s, now) != {} {
      CancelsAfterFail(r, s, DEADLINE_REASON, r.issued + NewControls(s, AfterFail(s, DEADLINE_REASON)));
    } else {
      NothingIssued(r, t, r.accepted, r.delivered, r.issued);
      assert r.issued + NewControls(s, t) == r.issued;
    }
  }

  lemma RepeatedStopIsQuiet(cfg: Config, r: Run, reason: Reason)
    requires r.state.stopping
    ensures Advance(cfg, r, BeginStop(reason)) == r
  {
    assert r.issued + NewControls(r.state, r.state) == r.issued;
  }

  lemma BeginStopKeepsCancels(cfg: Config, r: Run, reason: Reason)
    requires Inv(cfg, r.state) && CancelsOk(r)
    ensures CancelsOk(Advance(cfg, r, BeginStop(reason)))
  {
    if r.state.stopping {
      RepeatedStopIsQuiet(cfg, r, reason);
    } else {
      CancelsAfterFail(r, r.state, reason, Advance(cfg, r, BeginStop(reason)).issued);
    }
  }

  lemma TakeReasonKeepsCancels(cfg: Config, r: Run)
    requires CancelsOk(r)
    ensures CancelsOk(Advance(cfg, r, TakeReason))
  {
    assert r.issued + NewControls(r.state, AfterTakeReason(r.state)) == r.issued;
  }

  lemma AdvanceKeepsCancels(cfg: Config, r: Run, op: Operation)
    requires Inv(cfg, r.state) && CancelsOk(r)
    ensures CancelsOk(Advance(cfg, r, op))
  {
    match op
    case Complete(c, failure) => CompleteKeepsCancels(cfg, r, c, failure);
    case Expire(now) => ExpireKeepsCancels(cfg, r, now);
    case BeginStop(reason) => BeginStopKeepsCancels(cfg, r, reason);
    case TakeReason => TakeReasonKeepsCancels(cfg, r);
    case _ => QuietKeepsCancels(cfg, r, op);
  }

  lemma CompleteWithoutFailing(cfg: Config, s: State, c: Completion, failure: Option<Reason>)
    requires !Fails(s, c, failure)
    ensures var t := AfterComplete(cfg, s, c, failure);
            && NewControls(s, t) == [] && t.stopping == s.stopping && t.live.Keys <= s.live.Keys
            && t.abortTaken == s.abortTaken && t.abortReason == s.abortReason
  {
  }

  /** A completion that fails its call stops the driver over the remaining ones. */
  predicate Fails(s: State, c: Completion, failure: Option<Reason>) {
    c.sequence in s.live && !Late(s, c.sequence) && !s.live[c.sequence].received && failure.Some?
  }

  lemma FailingAdvance(cfg: Config, r: Run, c: Completion, failure: Option<Reason>, f: State, t: State)
    requires Fails(r.state, c, failure) && f == Forget(r.state, c.sequence) && t == AfterFail(f, failure.value)
    ensures Advance(cfg, r, Complete(c, failure)) ==
            Run(t, r.accepted, r.delivered, r.issued + NewControls(f, t), r.reasons)
  {
    assert AfterComplete(cfg, r.state, c, failure) == t;
  }

  lemma FailedCompleteKeepsCancels(cfg: Config, r: Run, c: Completion, failure: Option<Reason>)
    requires Inv(cfg, r.state) && CancelsOk(r) && Fails(r.state, c, failure)
    ensures CancelsOk(Advance(cfg, r, Complete(c, failure)))
  {
    var f := Forget(r.state, c.sequence);
    var t := AfterFail(f, failure.value);
    FailingAdvance(cfg, r, c, failure, f, t);
    CancelsAfterFail(r, f, failure.value, r.issued + NewControls(f, t));
  }

  lemma CompleteKeepsCancels(cfg: Config, r: Run, c: Completion, failure: Option<Reason>)
    requires Inv(cfg, r.state) && CancelsOk(r)
    ensures CancelsOk(Advance(cfg, r, Complete(c, failure)))
  {
    if Fails(r.state, c, failure) {
      FailedCompleteKeepsCancels(cfg, r, c, failure);
    } else {
      CompleteWithoutFailing(cfg, r.state, c, failure);
      NothingIssued(r, AfterComplete(cfg, r.state, c, failure), r.accepted, r.delivered, r.issued);
      assert r.issued + [] == r.issued;
    }
  }

  lemma {:induction false} RunKeepsCancels(cfg: Config, ops: seq<Operation>)
    ensures CancelsOk(Execute(cfg, ops))
  {
    if ops != [] {
      var before := ops[..|ops| - 1];
      RunKeepsInv(cfg, before);
      RunKeepsCancels(cfg, before);
      AdvanceKeepsCancels(cfg, Execute(cfg, before), ops[|ops| - 1]);
    }
  }

  /**
   After stopping: every call still live was dispatched and has been sent exactly one Cancel
   over the whole run, no call was ever sent two, and the terminal reason was handed out at
   most once and is the recorded one.
   */
  lemma StopCancelsOnce(cfg: Config, ops: seq<Operation>)
    ensures var r := Execute(cfg, ops);
            && (forall q :: multiset(r.issued)[Cancel(q)] <= 1)
            && (r.state.stopping ==> forall q :: q in r.state.live ==>
                r.state.live[q].dispatched && r.state.live[q].cancelled && multiset(r.issued)[Cancel(q)] == 1)
            && |r.reasons| <= 1 && (r.reasons != [] ==> r.state.abortReason == Some(r.reasons[0]))
  {
    RunKeepsInv(cfg, ops);
    RunKeepsCancels(cfg, ops);
  }

  /** How the driver may change once it is stopping. */
  ghost predicate Frozen(r: Run, t: Run) {
    && t.state.stopping && t.accepted == r.accepted && t.delivered == r.delivered
    && t.state.live.Keys <= r.state.live.Keys && t.state.ready == []
    && t.state.abortReason == r.state.abortReason
  }

  lemma StoppedStep(cfg: Config, r: Run, op: Operation)
    requires Inv(cfg, r.state) && r.state.stopping
    ensures Frozen(r, Advance(cfg, r, op))
  {
  }

  /**
   Stopping is final: whatever operations follow, nothing more is accepted or delivered, the
   live calls only shrink and the reason, or its absence after a graceful stop, never changes.
   */
  lemma {:induction false} StoppingIsFinal(cfg: Config, ops: seq<Operation>, more: seq<Operation>)
    requires Execute(cfg, ops).state.stopping
    ensures Frozen(Execute(cfg, ops), Continue(cfg, Execute(cfg, ops), more))
    ensures Inv(cfg, Continue(cfg, Execute(cfg, ops), more).state)
    decreases |more|
  {
    RunKeepsInv(cfg, ops);
    if more != [] {
      var before := more[..|more| - 1];
      StoppingIsFinal(cfg, ops, before);
      var r := Continue(cfg, Execute(cfg, ops), before);
      StepKeeps(cfg, r.state, more[|more| - 1]);
      StoppedStep(cfg, r, more[|more| - 1]);
    }
  }

  /** A stop that leaves no reason was graceful: it found, and leaves, no live call. */
  lemma GracefulStopIsIdle(cfg: Config, ops: seq<Operation>)
    requires Execute(cfg, ops).state.stopping && Execute(cfg, ops).state.abortReason.None?
    ensures Execute(cfg, ops).state.live == map[] && Execute(cfg, ops).reasons == []
  {
    RunKeepsInv(cfg, ops);
    RunKeepsCancels(cfg, ops);
  }

  // ---------------------------------------------------------------- commands after stop

  /** The domain completes only calls it has received. */
  predicate Disciplined(s: State, op: Operation) {
    op.Complete? && op.completion.sequence in s.live ==> s.live[op.completion.sequence].dispatched
  }

  ghost predicate AllDisciplined(cfg: Config, ops: seq<Operation>) {
    forall i :: 0 <= i < |ops| ==> Disciplined(Execute(cfg, ops[..i]).state, ops[i])
  }

  /** Every queued command belongs to a live call that has been neither dispatched nor answered. */
  ghost predicate QueueOk(s: State) {
    && (forall i :: 0 <= i < |s.commands| ==> Waiting(s, s.commands[i].sequence))
    && (forall i, j :: 0 <= i < j < |s.commands| ==> s.commands[i].sequence != s.commands[j].sequence)
    && (s.stopping ==> s.commands == [])
  }

  predicate Waiting(s: State, q: nat) {
    q in s.live && !s.live[q].dispatched && !s.live[q].received
  }

  /** A failure empties the command queue exactly when every queued command is a live undispatched call. */
  lemma FailEmptiesQueueIff(s: State, reason: Reason)
    ensures AfterFail(s, reason).commands == [] <==> forall c :: c in s.commands ==> c.sequence in Undispatched(s.live)
  {
    RetainShrinks(s.commands, Undispatched(s.live));
    if AfterFail(s, reason).commands != [] {
      assert AfterFail(s, reason).commands[0] in AfterFail(s, reason).commands;
    }
  }

  lemma FailKeepsQueue(s: State, reason: Reason)
    requires forall i :: 0 <= i < |s.commands| ==> Waiting(s, s.commands[i].sequence)
    ensures AfterFail(s, reason).commands == []
  {
    FailEmptiesQueueIff(s, reason);
  }

  lemma SubmitKeepsQueue(cfg: Config, s: State, c: Command, now: nat)
    requires QueueOk(s)
    ensures QueueOk(AfterSubmit(cfg, s, c, now))
  {
  }

  lemma ReceiveKeepsQueue(s: State)
    requires QueueOk(s)
    ensures QueueOk(AfterReceive(s))
  {
  }

  lemma QueueWithout(s: State, t: State, q: nat)
    requires QueueOk(s) && !s.stopping && q in s.live && s.live[q].received
    requires t.live == s.live - {q} && t.commands == s.commands && !t.stopping
    ensures QueueOk(t)
  {
    forall i | 0 <= i < |t.commands| ensures Waiting(t, t.commands[i].sequence) {
      assert Waiting(s, s.commands[i].sequence);
    }
  }

  lemma TakeKeepsQueue(cfg: Config, s: State)
    requires Inv(cfg, s) && QueueOk(s)
    ensures QueueOk(AfterTake(cfg, s))
  {
    if s.ready != [] {
      var q := s.ready[0].sequence;
      assert s.ready[0] in s.ready && q in SequencesOf(s.ready) && s.live[q].received;
      TakeRemovesHead(cfg, s);
      QueueWithout(s, AfterTake(cfg, s), q);
    }
  }

  lemma StepKeepsQueue(cfg: Config, s: State, op: Operation)
    requires Inv(cfg, s) && QueueOk(s) && Disciplined(s, op)
    ensures QueueOk(Step(cfg, s, op))
  {
    match op
    case Submit(c, now) => SubmitKeepsQueue(cfg, s, c, now);
    case Receive => ReceiveKeepsQueue(s);
    case Complete(c, failure) => CompleteKeepsQueue(cfg, s, c, failure);
    case Take => TakeKeepsQueue(cfg, s);
    case Expire(now) => FailKeepsQueue(s, DEADLINE_REASON);
    case BeginStop(reason) => FailKeepsQueue(s, reason);
    case BeginGracefulStop => assert |s.commands| > 0 ==> Waiting(s, s.commands[0].sequence);
    case TakeReason =>
    case Acknowledge(q) => AcknowledgeKeepsQueue(s, q);
  }

  lemma AcknowledgeKeepsQueue(s: State, q: nat)
    requires StopOk(s) && QueueOk(s)
    ensures QueueOk(AfterAcknowledge(s, q))
  {
  }

  /** A completion the driver buffers marks its call, which has no command queued, as answered. */
  lemma BufferKeepsQueue(cfg: Config, s: State, c: Completion, t: State)
    requires QueueOk(s) && !s.stopping && c.sequence in s.live && s.live[c.sequence].dispatched
    requires t == Buffer(cfg, s, c)
    ensures QueueOk(t)
  {
    assert t.commands == s.commands && t.stopping == s.stopping;
    forall i | 0 <= i < |t.commands| ensures Waiting(t, t.commands[i].sequence) {
      assert Waiting(s, s.commands[i].sequence);
    }
  }

  lemma ForgetKeepsQueue(s: State, q: nat)
    requires QueueOk(s) && (q in s.live ==> s.live[q].dispatched)
    ensures QueueOk(Forget(s, q))
  {
    forall i | 0 <= i < |s.commands| ensures Waiting(Forget(s, q), s.commands[i].sequence) {
      assert Waiting(s, s.commands[i].sequence);
    }
  }

  lemma CompleteKeepsQueue(cfg: Config, s: State, c: Completion, failure: Option<Reason>)
    requires Inv(cfg, s) && QueueOk(s) && Disciplined(s, Complete(c, failure))
    ensures QueueOk(AfterComplete(cfg, s, c, failure))
  {
    ForgetKeepsQueue(s, c.sequence);
    if c.sequence in s.live && !Late(s, c.sequence) {
      if failure.Some? {
        FailKeepsQueue(Forget(s, c.sequence), failure.value);
      } else {
        BufferKeepsQueue(cfg, s, c, Buffer(cfg, s, c));
      }
    }
  }

  lemma PrefixDisciplined(cfg: Config, ops: seq<Operation>)
    requires AllDisciplined(cfg, ops) && ops != []
    ensures var before := ops[..|ops| - 1];
            AllDisciplined(cfg, before) && Disciplined(Execute(cfg, before).state, ops[|ops| - 1])
  {
    var before := ops[..|ops| - 1];
    forall i | 0 <= i < |before| ensures Disciplined(Execute(cfg, before[..i]).state, before[i]) {
      assert before[..i] == ops[..i] && before[i] == ops[i];
    }
  }

  lemma {:induction false} RunKeepsQueue(cfg: Config, ops: seq<Operation>)
    requires AllDisciplined(cfg, ops)
    ensures QueueOk(Execute(cfg, ops).state)
  {
    if ops != [] {
      var before := ops[..|ops| - 1];
      PrefixDisciplined(cfg, ops);
      RunKeepsInv(cfg, before);
      RunKeepsQueue(cfg, before);
      StepKeepsQueue(cfg, Execute(cfg, before).state, ops[|ops| - 1]);
    }
  }

  /** When the domain completes only what it received, a stopping driver hands out no ordinary command. */
  lemma NoCommandAfterStop(cfg: Config, ops: seq<Operation>)
    requires AllDisciplined(cfg, ops) && Execute(cfg, ops).state.stopping
    ensures !ReceiveResult(Execute(cfg, ops).state).CommandItem?
  {
    RunKeepsQueue(cfg, ops);
  }

  // ---------------------------------------------------------------- exactly when a command outlives the stop

  /** The calls whose commands a stopping operation takes back; a failing completion forgets its own call first. */
  function Vanishing(s: State, op: Operation): set<nat> {
    if op.Complete? then Undispatched(s.live) - {op.completion.sequence} else Undispatched(s.live)
  }

  predicate TurnsStopping(cfg: Config, s: State, op: Operation) {
    !s.stopping && Step(cfg, s, op).stopping
  }

  lemma {:induction false} RetainAll(commands: seq<Command>)
    ensures Retain(commands, {}) == commands
  {
    if commands != [] { RetainAll(commands[1..]); }
  }

  lemma FailingCompleteKeeps(cfg: Config, s: State, c: Completion, failure: Option<Reason>)
    requires TurnsStopping(cfg, s, Complete(c, failure))
    ensures Step(cfg, s, Complete(c, failure)).commands == Retain(s.commands, Vanishing(s, Complete(c, failure)))
  {
    assert Undispatched(s.live - {c.sequence}) == Undispatched(s.live) - {c.sequence};
  }

  lemma GracefulStopKeeps(cfg: Config, s: State)
    requires TurnsStopping(cfg, s, BeginGracefulStop)
    ensures Step(cfg, s, BeginGracefulStop).commands == Retain(s.commands, Vanishing(s, BeginGracefulStop))
  {
    assert Undispatched(s.live) == {};
    RetainAll(s.commands);
  }

  lemma OthersDoNotStop(cfg: Config, s: State, op: Operation)
    requires op.Submit? || op.Receive? || op.Take? || op.TakeReason? || op.Acknowledge?
    ensures Step(cfg, s, op).stopping == s.stopping
  {
  }

  /** Whichever operation stops the driver, the commands it leaves are those of calls it does not take back. */
  lemma StopLeaves(cfg: Config, s: State, op: Operation)
    requires TurnsStopping(cfg, s, op)
    ensures Step(cfg, s, op).commands == Retain(s.commands, Vanishing(s, op))
  {
    match op
    case Complete(c, failure) => FailingCompleteKeeps(cfg, s, c, failure);
    case BeginGracefulStop => GracefulStopKeeps(cfg, s);
    case BeginStop(_) =>
    case Expire(_) =>
    case _ => OthersDoNotStop(cfg, s, op);
  }

  function StateAfter(cfg: Config, s: State, ops: seq<Operation>): State {
    if ops == [] then s else Step(cfg, StateAfter(cfg, s, ops[..|ops| - 1]), ops[|ops| - 1])
  }

  ghost predicate HandsOutCommand(cfg: Config, s: State) {
    exists more :: ReceiveResult(StateAfter(cfg, s, more)).CommandItem?
  }

  lemma EmptyQueueStays(cfg: Config, s: State, op: Operation)
    requires s.stopping && s.commands == []
    ensures Step(cfg, s, op).stopping && Step(cfg, s, op).commands == []
  {
  }

  lemma {:induction false} EmptyQueueLasts(cfg: Config, s: State, more: seq<Operation>)
    requires s.stopping && s.commands == []
    ensures StateAfter(cfg, s, more).stopping && StateAfter(cfg, s, more).commands == []
  {
    if more != [] {
      EmptyQueueLasts(cfg, s, more[..|more| - 1]);
      EmptyQueueStays(cfg, StateAfter(cfg, s, more[..|more| - 1]), more[|more| - 1]);
    }
  }

  /** Receiving hands the controls out first and then the commands. */
  lemma {:induction false} ControlsFirst(cfg: Config, s: State, k: nat)
    requires k <= |s.controls|
    ensures var t := StateAfter(cfg, s, seq(k, i => Receive)); t.controls == s.controls[k..] && t.commands == s.commands
  {
    if k > 0 {
      ControlsFirst(cfg, s, k - 1);
      assert seq(k, i => Receive)[..k - 1] == seq(k - 1, i => Receive);
    }
  }

  lemma QueueIsHandedOut(cfg: Config, s: State)
    requires s.commands != []
    ensures HandsOutCommand(cfg, s)
  {
    var more := seq(|s.controls|, i => Receive);
    ControlsFirst(cfg, s, |s.controls|);
    assert ReceiveResult(StateAfter(cfg, s, more)).CommandItem?;
  }

  lemma {:induction false} RetainNothingIff(commands: seq<Command>, gone: set<nat>)
    ensures Retain(commands, gone) == [] <==> forall c :: c in commands ==> c.sequence in gone
  {
    RetainShrinks(commands, gone);
    if Retain(commands, gone) != [] { assert Retain(commands, gone)[0] in Retain(commands, gone); }
  }

  /**
   Exactly when the promise fails, for every operation that stops the driver, graceful or not:
   after it some ordinary command can still be handed out if and only if, before it, some
   queued command belongs to no live undispatched call, or to the very call a failing
   completion answers.
   */
  lemma StopHandsOutIff(cfg: Config, s: State, op: Operation)
    requires TurnsStopping(cfg, s, op)
    ensures HandsOutCommand(cfg, Step(cfg, s, op)) <==> exists c :: c in s.commands && c.sequence !in Vanishing(s, op)
  {
    var t := Step(cfg, s, op);
    StopLeaves(cfg, s, op);
    RetainNothingIff(s.commands, Vanishing(s, op));
    if t.commands != [] {
      QueueIsHandedOut(cfg, t);
    } else {
      forall more ensures !ReceiveResult(StateAfter(cfg, t, more)).CommandItem? { EmptyQueueLasts(cfg, t, more); }
    }
  }

  /** The operations of a run that breaks the discipline: complete an undispatched call, take it, then stop. */
  function Undisciplined(stop: Operation): seq<Operation> {
    [Submit(Command(1, 7, 1), 0), Complete(Completion(1, 8, 1), None), Take, stop]
  }

  lemma UndisciplinedPrefix(cfg: Config)
    requires cfg == Config(1, 1, 1, 1, 1, 10, true)
    ensures var s := StateAfter(cfg, FRESH, Undisciplined(Take)[..3]);
            s.live == map[] && s.commands == [Command(1, 7, 1)] && s.controls == [] && !s.stopping
  {
    var c := Command(1, 7, 1);
    var ops := Undisciplined(Take)[..3];
    assert ops[..2][..1] == ops[..1] && ops[..1][..0] == [];
    var s1 := Step(cfg, FRESH, Submit(c, 0));
    assert StateAfter(cfg, FRESH, ops[..1]) == s1;
    assert s1.strictOrder == [1] && s1.commands == [c];
    var s2 := Step(cfg, s1, Complete(Completion(1, 8, 1), None));
    assert |s1.ready| + |s1.ordered| == 0;
    assert s2.ready == [Completion(1, 8, 1)];
    assert StateAfter(cfg, FRESH, ops[..2]) == s2;
    var s3 := Step(cfg, s2, Take);
    assert s3.live == map[] && s3.commands == [c];
  }

  /** So the undispatched command is handed out after a graceful stop, right behind the Stop control. */
  lemma UndisciplinedCommandSurvives()
    ensures var cfg := Config(1, 1, 1, 1, 1, 10, true);
            var stopped := StateAfter(cfg, FRESH, Undisciplined(BeginGracefulStop));
            && stopped.stopping
            && ReceiveResult(stopped) == ControlItem(Stop)
            && ReceiveResult(Step(cfg, stopped, Receive)) == CommandItem(Command(1, 7, 1))
  {
    var cfg := Config(1, 1, 1, 1, 1, 10, true);
    UndisciplinedPrefix(cfg);
    assert Undisciplined(BeginGracefulStop)[..3] == Undisciplined(Take)[..3];
  }
}
