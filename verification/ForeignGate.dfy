/** The driver as an object: each method updates the locked state in place, exactly as `Step` says. */
module ForeignGate {
  import opened Optional
  import opened SmallestFirst
  import opened ForeignDriver

  lemma LeastOfPart(sequences: set<nat>, rest: set<nat>, q: nat)
    requires rest != {} && q == Least(rest)
    ensures q in sequences ==> CancelsFor(sequences * rest) == [Cancel(q)] + CancelsFor(sequences * (rest - {q}))
    ensures q in sequences ==> |sequences * rest| == |sequences * (rest - {q})| + 1
    ensures q !in sequences ==> sequences * (rest - {q}) == sequences * rest
  {
    if q in sequences {
      var part := sequences * rest;
      assert q in part && Least(part) == q;
      assert part - {q} == sequences * (rest - {q});
    }
  }

  function NotCancelled(live: map<nat, Live>): set<nat> {
    set q | q in live && !live[q].cancelled
  }

  /** The calls outside `rest` have been marked as cancelled, nothing else has changed. */
  ghost predicate Marked(before: map<nat, Live>, live: map<nat, Live>, rest: set<nat>) {
    && live.Keys == before.Keys
    && forall q :: q in before ==> live[q] == if q in rest then before[q] else before[q].(cancelled := true)
  }

  /** The cancellation pass over the calls outside `rest`, relative to where it started. */
  ghost predicate Cancelling(start: State, now: State, rest: set<nat>) {
    var pending := NotCancelled(start.live);
    && rest <= start.live.Keys && Marked(start.live, now.live, rest)
    && now == start.(live := now.live, controls := now.controls, cancellationTotal := now.cancellationTotal)
    && now.controls + CancelsFor(pending * rest) == start.controls + CancelsFor(pending)
    && now.cancellationTotal + |pending * rest| == start.cancellationTotal + |pending|
  }

  lemma CancellingStarts(s: State)
    ensures Cancelling(s, s, s.live.Keys)
  {
    assert NotCancelled(s.live) * s.live.Keys == NotCancelled(s.live);
  }

  lemma CancelNext(start: State, now: State, rest: set<nat>, q: nat)
    requires Cancelling(start, now, rest) && rest != {} && q == Least(rest)
    ensures q in now.live && now.live[q] == start.live[q]
    ensures start.live[q].cancelled ==> Cancelling(start, now, rest - {q})
    ensures !start.live[q].cancelled ==>
              Cancelling(start, now.(controls := now.controls + [Cancel(q)],
                                     cancellationTotal := now.cancellationTotal + 1,
                                     live := now.live[q := now.live[q].(cancelled := true)]), rest - {q})
  {
    var pending := NotCancelled(start.live);
    LeastOfPart(pending, rest, q);
    var after := now.live[q := now.live[q].(cancelled := true)];
    if start.live[q].cancelled {
      assert Marked(start.live, now.live, rest - {q}) by { assert start.live[q].(cancelled := true) == start.live[q]; }
    } else {
      assert Marked(start.live, after, rest - {q});
      assert now.controls + ([Cancel(q)] + CancelsFor(pending * (rest - {q}))) ==
        (now.controls + [Cancel(q)]) + CancelsFor(pending * (rest - {q}));
    }
  }

  lemma CancellingEnds(start: State, now: State)
    requires Cancelling(start, now, {})
    ensures now == start.(live := map q | q in start.live :: start.live[q].(cancelled := true),
                          controls := start.controls + CancelsFor(NotCancelled(start.live)),
                          cancellationTotal := start.cancellationTotal + |NotCancelled(start.live)|)
  {
    assert NotCancelled(start.live) * {} == {};
    assert now.controls + [] == now.controls;
    assert now.live == map q | q in start.live :: start.live[q].(cancelled := true);
  }

  /** Dropping the undispatched calls and then cancelling the rest adds up to a failure. */
  lemma FailComposed(s: State, reason: Reason, dropped: State, now: State)
    requires var gone := Undispatched(s.live); var kept := Retain(s.commands, gone);
             dropped == s.(accepting := false, stopping := true, tokenCancelled := true,
                           abortReason := Some(FirstReason(s, reason)),
                           commands := kept, commandBytes := CommandSum(kept),
                           live := s.live - gone, strictOrder := RemoveEach(s.strictOrder, gone))
    requires now == dropped.(live := map q | q in dropped.live :: dropped.live[q].(cancelled := true),
                             controls := dropped.controls + CancelsFor(NotCancelled(dropped.live)),
                             cancellationTotal := dropped.cancellationTotal + |NotCancelled(dropped.live)|)
    ensures now.abortReason.Some?
    ensures now.(controls := now.controls + [Abort(now.abortReason.value)] + [Stop], ready := [], readyBytes := 0,
                 ordered := map[], orderedBytes := 0)
            == AfterFail(s, reason)
  {
    assert NotCancelled(dropped.live) == ToCancel(s.live);
    assert now.live == AfterFail(s, reason).live;
    var controls := s.controls + CancelsFor(ToCancel(s.live));
    assert controls + [Abort(FirstReason(s, reason))] + [Stop] == controls + [Abort(FirstReason(s, reason)), Stop];
  }

  class ForeignNodeDriver {
    const cfg: Config
    var state: State

    constructor (config: Config)
      ensures cfg == config && state == FRESH
    {
      cfg := config;
      state := FRESH;
    }

    method TrySubmit(c: Command, now: nat) returns (outcome: SubmitOutcome)
      modifies this
      ensures state == AfterSubmit(cfg, old(state), c, now) && outcome == SubmitResult(cfg, old(state), c)
    {
      if state.stopping { return Closed; }
      if state.tokenCancelled { return Cancelled; }
      if !state.accepting { return Closed; }
      if c.sequence in state.live { return DuplicateSequence; }
      if cfg.strict {
        if state.lastStrict.Some? && c.sequence != NextStrict(state.lastStrict.value) { return StrictSequenceGap; }
        state := state.(lastStrict := Some(c.sequence));
      }
      if |state.live| == cfg.maxInFlight || |state.commands| == cfg.commandCapacity
        || !Fits(state.commandBytes, c.bytes, cfg.commandByteCapacity)
      {
        return Full;
      }
      state := state.(commands := state.commands + [c], commandBytes := state.commandBytes + c.bytes);
      state := state.(live := state.live[c.sequence := Live(now + cfg.deadline, false, false, false)]);
      if cfg.strict {
        state := state.(strictOrder := state.strictOrder + [c.sequence]);
      }
      return Accepted;
    }

    method TryReceive() returns (item: Received)
      modifies this
      ensures state == AfterReceive(old(state)) && item == ReceiveResult(old(state))
    {
      if state.controls != [] {
        item := ControlItem(state.controls[0]);
        state := state.(controls := state.controls[1..]);
        return;
      }
      if state.commands == [] {
        return Nothing;
      }
      var c := state.commands[0];
      item := CommandItem(c);
      state := state.(commands := state.commands[1..],
                      commandBytes := if state.commandBytes >= c.bytes then state.commandBytes - c.bytes else 0);
      if c.sequence in state.live {
        state := state.(live := state.live[c.sequence := state.live[c.sequence].(dispatched := true)]);
      }
    }

    /** Moves released completions one by one; a second round never finds the head buffered again. */
    method PromoteStrict()
      modifies this
      ensures state == Promote(old(state))
    {
      while state.strictOrder != [] && state.strictOrder[0] in state.ordered
        invariant state == old(state)
                  || (state == Promote(old(state))
                      && (state.strictOrder == [] || state.strictOrder[0] !in state.ordered))
        decreases |state.ordered|
      {
        var q := state.strictOrder[0];
        var c := state.ordered[q];
        assert (state.ordered - {q}).Keys == state.ordered.Keys - {q};
        state := state.(ordered := state.ordered - {q},
                        orderedBytes := if state.orderedBytes >= c.bytes then state.orderedBytes - c.bytes else 0,
                        readyBytes := state.readyBytes + c.bytes,
                        ready := state.ready + [c]);
      }
    }

    /** Undispatched calls vanish one by one from the live table and the strict order. */
    method DropUndispatched(gone: set<nat>)
      modifies this
      ensures state == old(state).(live := old(state).live - gone,
                                   strictOrder := RemoveEach(old(state).strictOrder, gone))
    {
      var rest := gone;
      assert gone - rest == {};
      while rest != {}
        invariant rest <= gone
        invariant state == old(state).(live := old(state).live - (gone - rest), strictOrder := state.strictOrder)
        invariant RemoveEach(state.strictOrder, rest) == RemoveEach(old(state).strictOrder, gone)
        decreases rest
      {
        var q := Least(rest);
        assert gone - (rest - {q}) == (gone - rest) + {q};
        state := state.(live := state.live - {q}, strictOrder := RemoveSequence(state.strictOrder, q));
        rest := rest - {q};
      }
      assert gone - rest == gone;
    }

    /** One call is marked and, unless it already was, sent one Cancel. */
    method CancelOne(q: nat)
      requires q in state.live
      modifies this
      ensures state == if old(state).live[q].cancelled then old(state)
                       else old(state).(controls := old(state).controls + [Cancel(q)],
                                        cancellationTotal := old(state).cancellationTotal + 1,
                                        live := old(state).live[q := old(state).live[q].(cancelled := true)])
    {
      if !state.live[q].cancelled {
        state := state.(controls := state.controls + [Cancel(q)],
                        cancellationTotal := state.cancellationTotal + 1,
                        live := state.live[q := state.live[q].(cancelled := true)]);
      }
    }

    /** Every remaining call is marked and, unless it already was, sent one Cancel in sequence order. */
    method CancelRemaining()
      modifies this
      ensures state == old(state).(
                live := map q | q in old(state).live :: old(state).live[q].(cancelled := true),
                controls := old(state).controls + CancelsFor(NotCancelled(old(state).live)),
                cancellationTotal := old(state).cancellationTotal + |NotCancelled(old(state).live)|)
    {
      var rest := state.live.Keys;
      CancellingStarts(state);
      while rest != {}
        invariant Cancelling(old(state), state, rest)
        decreases rest
      {
        var q := Least(rest);
        CancelNext(old(state), state, rest, q);
        CancelOne(q);
        rest := rest - {q};
      }
      CancellingEnds(old(state), state);
    }

    method FailLocked(reason: Reason)
      modifies this
      ensures state == AfterFail(old(state), reason)
    {
      ghost var s := state;
      state := state.(accepting := false, stopping := true, tokenCancelled := true);
      if state.abortReason.None? {
        state := state.(abortReason := Some(reason));
      }
      var gone := Undispatched(state.live);
      state := state.(commands := Retain(state.commands, gone));
      state := state.(commandBytes := CommandSum(state.commands));
      DropUndispatched(gone);
      ghost var dropped := state;
      CancelRemaining();
      FailComposed(s, reason, dropped, state);
      state := state.(controls := state.controls + [Abort(state.abortReason.value)]);
      state := state.(controls := state.controls + [Stop]);
      state := state.(ready := [], readyBytes := 0, ordered := map[], orderedBytes := 0);
    }

    method BufferCompletion(c: Completion)
      requires c.sequence in state.live
      modifies this
      ensures state == Buffer(cfg, old(state), c)
    {
      var q := c.sequence;
      state := state.(live := state.live[q := state.live[q].(received := true)]);
      if cfg.strict {
        state := state.(orderedBytes := state.orderedBytes + c.bytes, ordered := state.ordered[q := c]);
        assert state == Stored(old(state), c);
        PromoteStrict();
      } else {
        state := state.(readyBytes := state.readyBytes + c.bytes, ready := state.ready + [c]);
      }
    }

    method TryComplete(c: Completion, failure: Option<Reason>) returns (outcome: CompletionOutcome)
      modifies this
      ensures state == AfterComplete(cfg, old(state), c, failure)
      ensures outcome == CompleteResult(cfg, old(state), c, failure)
    {
      var q := c.sequence;
      if q !in state.live {
        if state.stopping { return CompletionClosed; }
        state := state.(lateTotal := state.lateTotal + 1);
        return LateDiscarded;
      }
      if state.live[q].cancelled || state.stopping || state.tokenCancelled {
        state := state.(lateTotal := state.lateTotal + 1);
        state := state.(live := state.live - {q}, strictOrder := RemoveSequence(state.strictOrder, q));
        return LateDiscarded;
      }
      if state.live[q].received {
        state := state.(lateTotal := state.lateTotal + 1);
        return LateDiscarded;
      }
      if failure.Some? {
        state := state.(live := state.live - {q}, strictOrder := RemoveSequence(state.strictOrder, q));
        FailLocked(failure.value);
        return CompletionAccepted;
      }
      if |state.ready| + |state.ordered| == cfg.completionCapacity
        || !Fits(state.readyBytes + state.orderedBytes, c.bytes, cfg.completionByteCapacity)
      {
        return CompletionFull;
      }
      BufferCompletion(c);
      return CompletionAccepted;
    }

    method TryTakeCompletion() returns (taken: Option<Completion>)
      modifies this
      ensures state == AfterTake(cfg, old(state))
      ensures taken == if old(state).ready == [] then None else Some(old(state).ready[0])
    {
      if state.ready == [] {
        return None;
      }
      var c := state.ready[0];
      state := state.(ready := state.ready[1..],
                      readyBytes := if state.readyBytes >= c.bytes then state.readyBytes - c.bytes else 0);
      state := state.(live := state.live - {c.sequence}, strictOrder := RemoveSequence(state.strictOrder, c.sequence));
      assert state == Popped(old(state));
      if cfg.strict {
        PromoteStrict();
      }
      return Some(c);
    }

    method ExpireDeadlines(now: nat) returns (count: nat)
      modifies this
      ensures state == AfterExpire(old(state), now) && count == |Expired(old(state), now)|
    {
      var expired := Expired(state, now);
      if expired == {} {
        return 0;
      }
      FailLocked(DEADLINE_REASON);
      state := state.(cancellationTotal := state.cancellationTotal + |expired|);
      return |expired|;
    }

    method BeginStop(reason: Reason) returns (first: bool)
      modifies this
      ensures state == (if old(state).stopping then old(state) else AfterFail(old(state), reason))
      ensures first == !old(state).stopping
    {
      if state.stopping {
        return false;
      }
      FailLocked(reason);
      return true;
    }

    method BeginGracefulStop() returns (begun: bool)
      modifies this
      ensures state == AfterGraceful(old(state)) && begun == GracefulAllowed(old(state))
    {
      if state.stopping || state.live != map[] {
        return false;
      }
      state := state.(accepting := false, stopping := true, tokenCancelled := true,
                      controls := state.controls + [Stop]);
      return true;
    }

    method TakeAbortReason() returns (reason: Option<Reason>)
      modifies this
      ensures state == AfterTakeReason(old(state))
      ensures reason == if old(state).abortTaken then None else old(state).abortReason
    {
      if state.abortTaken || state.abortReason.None? {
        return None;
      }
      state := state.(abortTaken := true);
      return state.abortReason;
    }

    method AcknowledgeCancel(q: nat) returns (known: bool)
      modifies this
      ensures state == AfterAcknowledge(old(state), q) && known == CancelPending(old(state), q)
    {
      if q !in state.live || !state.live[q].cancelled {
        return false;
      }
      state := state.(live := state.live - {q}, strictOrder := RemoveSequence(state.strictOrder, q));
      return true;
    }
  }
}
