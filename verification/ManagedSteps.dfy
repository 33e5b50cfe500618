/** Every step of the managed stream keeps the invariant. */
module ManagedSteps {
  import opened Optional
  import opened FiniteSets
  import opened ManagedModel
  import opened ManagedInvariant

  /** Only request `q` and none of the executor's sets change. */
  predicate OnlyRequest(s: State, t: State, q: nat) {
    && q < |s.requests| && |t.requests| == |s.requests| && t.requests == s.requests[q := t.requests[q]]
    && t.closed == s.closed && t.popped == s.popped && t.next == s.next
    && t.active == s.active && t.ordered == s.ordered && t.relaxed == s.relaxed
    && t.delivered == s.delivered && t.results == s.results && t.emitted == s.emitted
    && t.input == s.input && t.pc == s.pc
  }

  lemma OneRequestKeeps(cfg: Config, s: State, t: State, q: nat)
    requires Inv(cfg, s) && OnlyRequest(s, t, q) && AccountsOk(cfg, t)
    requires RequestOk(cfg.strict, s.closed, t.requests[q], PlaceOf(s, q))
    requires s.requests[q].claimed.Some? ==> t.requests[q].claimed == s.requests[q].claimed
    ensures Inv(cfg, t)
  {
    OutgoingKept(cfg, s, t);
    forall k: nat | k < |t.requests| ensures RequestAt(cfg, t, k) {
      assert PlaceOf(t, k) == PlaceOf(s, k) && RequestAt(cfg, s, k);
    }
  }

  lemma MarkKeepsRequest(strict: bool, closed: bool, r: Request, p: Place)
    requires RequestOk(strict, closed, r, p)
    ensures RequestOk(strict, closed, r.(cancelFlag := true), p)
  {
  }

  lemma CancelKeepsRequest(strict: bool, closed: bool, r: Request, p: Place)
    requires RequestOk(strict, closed, r, p) && r.cancelFlag && r.claimed.None?
    ensures RequestOk(strict, closed, r.(claimed := Some(Cancelled)), p)
  {
  }

  lemma CountKeepsRequest(strict: bool, closed: bool, r: Request, p: Place)
    requires RequestOk(strict, closed, r, p) && r.claimed.Some? && !r.lease
    ensures RequestOk(strict, closed, r.(kindCounted := true), p)
    ensures RequestOk(strict, closed, r.(totalCounted := true), p)
  {
  }

  lemma ReleaseKeepsRequest(strict: bool, closed: bool, r: Request, p: Place)
    requires RequestOk(strict, closed, r, p) && r.claimed.Some?
    ensures RequestOk(strict, closed, r.(lease := false), p)
  {
  }

  lemma WinKeepsRequest(strict: bool, closed: bool, r: Request, p: Place, result: Option<Outcome>)
    requires RequestOk(strict, closed, r, p) && r.stage.Running? && r.claimed.None? && PossibleResult(r, result)
    ensures RequestOk(strict, closed,
              r.(stage := Finished(result), claimed := Some(if result.Some? then result.value else Failed)), p)
  {
  }

  lemma LoseKeepsRequest(strict: bool, closed: bool, r: Request, p: Place)
    requires RequestOk(strict, closed, r, p) && r.stage.Running? && r.claimed.Some?
    ensures RequestOk(strict, closed, r.(stage := Finished(None)), p)
  {
  }

  lemma PushKeepsRequest(strict: bool, closed: bool, r: Request, p: Place)
    requires RequestOk(strict, closed, r, p) && r.stage.Finished?
    ensures RequestOk(strict, closed, r.(stage := if closed then Discarded else Posted(r.stage.result)), p)
  {
  }

  lemma SpawnKeepsRequest(strict: bool, closed: bool, r: Request, p: Place)
    requires RequestOk(strict, closed, r, p) && r.stage.Launching?
    ensures RequestOk(strict, closed, r.(stage := Running), p)
  {
  }

  // ---------------------------------------------------------------- steps of callers and workers

  lemma MarkKeeps(cfg: Config, s: State, q: nat)
    requires Inv(cfg, s) && MarkStep(s, q).Some?
    ensures Inv(cfg, MarkStep(s, q).value)
  {
    var t := MarkStep(s, q).value;
    assert RequestAt(cfg, s, q);
    MarkKeepsRequest(cfg.strict, s.closed, s.requests[q], PlaceOf(s, q));
    AccountsKept(cfg, s, q, t.requests[q], t);
    OneRequestKeeps(cfg, s, t, q);
  }

  lemma CancelWinKeeps(cfg: Config, s: State, q: nat, t: State)
    requires Inv(cfg, s) && FinishCancelStep(s, q) == Some(t) && s.requests[q].cancelFlag && s.requests[q].claimed.None?
    ensures Inv(cfg, t)
  {
    assert RequestAt(cfg, s, q);
    CancelKeepsRequest(cfg.strict, s.closed, s.requests[q], PlaceOf(s, q));
    ClaimKeepsAccounts(cfg, s, q, Cancelled, s.requests[q].stage, t);
    OneRequestKeeps(cfg, s, t, q);
  }

  lemma FinishCancelKeeps(cfg: Config, s: State, q: nat, t: State)
    requires Inv(cfg, s) && FinishCancelStep(s, q) == Some(t) && s.requests[q].cancelFlag
    ensures Inv(cfg, t)
  {
    if s.requests[q].claimed.None? {
      CancelWinKeeps(cfg, s, q, t);
    } else {
      OutgoingKept(cfg, s, t);
      SamePlaces(cfg, s, t);
    }
  }

  lemma ReleaseKeeps(cfg: Config, s: State, q: nat, t: State)
    requires Inv(cfg, s) && ReleaseStep(s, q) == Some(t)
    ensures Inv(cfg, t)
  {
    assert RequestAt(cfg, s, q);
    ReleaseKeepsRequest(cfg.strict, s.closed, s.requests[q], PlaceOf(s, q));
    ReleaseKeepsAccounts(cfg, s, q, t);
    OneRequestKeeps(cfg, s, t, q);
  }

  // ---------------------------------------------------------------- waking the executor

  /** Moving the program counter, to anything the input clause allows, changes nothing else. */
  lemma PcKeeps(cfg: Config, s: State, pc: Pc)
    requires Inv(cfg, s) && (pc.Sweeping? ==> pc.todo <= s.active) && (s.closed ==> MailboxFree(s.(pc := pc)))
    ensures Inv(cfg, s.(pc := pc))
  {
    SamePlaces(cfg, s, s.(pc := pc));
    OutgoingKept(cfg, s, s.(pc := pc));
  }

  lemma WakeKeeps(cfg: Config, s: State)
    requires Inv(cfg, s)
    ensures Inv(cfg, Wake(s))
  {
    PcKeeps(cfg, s, Draining);
  }

  /** Bookkeeping the invariant does not look at. */
  lemma BookkeepingKeeps(cfg: Config, s: State, t: State)
    requires Inv(cfg, s)
    requires t == s.(cancelling := t.cancelling, stopping := t.stopping, park := t.park)
    ensures Inv(cfg, t)
  {
    OutgoingKept(cfg, s, t);
    SamePlaces(cfg, s, t);
  }

  lemma NotifyCancelKeeps(cfg: Config, s: State, q: nat, t: State)
    requires Inv(cfg, s) && NotifyCancelStep(s, q) == Some(t)
    ensures Inv(cfg, t)
  {
    var u := s.(park := s.park.(notifying := s.park.notifying - multiset{q}));
    BookkeepingKeeps(cfg, s, u);
    WakeKeeps(cfg, u);
  }

  lemma NotifyStopKeeps(cfg: Config, s: State, t: State)
    requires Inv(cfg, s) && NotifyStopStep(s) == Some(t)
    ensures Inv(cfg, t)
  {
    var u := s.(park := s.park.(stopNotified := true));
    BookkeepingKeeps(cfg, s, u);
    WakeKeeps(cfg, u);
  }

  lemma CountKindAccounts(cfg: Config, s: State, q: nat)
    requires AccountsOk(cfg, s) && CountKindStep(s, q).Some?
    ensures AccountsOk(cfg, CountKindStep(s, q).value)
  {
    var t := CountKindStep(s, q).value;
    var r := t.requests[q];
    LeasesAfter(s.requests, q, r);
    TotalsAfter(s.requests, q, r);
    forall o ensures CountOf(t.counts, o) == |Kind(t.requests, o)| { KindAfter(s.requests, q, r, o); }
  }

  lemma CountKindKeeps(cfg: Config, s: State, q: nat)
    requires Inv(cfg, s) && CountKindStep(s, q).Some?
    ensures Inv(cfg, CountKindStep(s, q).value)
  {
    assert RequestAt(cfg, s, q);
    CountKeepsRequest(cfg.strict, s.closed, s.requests[q], PlaceOf(s, q));
    CountKindAccounts(cfg, s, q);
    OneRequestKeeps(cfg, s, CountKindStep(s, q).value, q);
  }

  lemma CountTotalAccounts(cfg: Config, s: State, q: nat)
    requires AccountsOk(cfg, s) && CountTotalStep(s, q).Some?
    ensures AccountsOk(cfg, CountTotalStep(s, q).value)
  {
    var t := CountTotalStep(s, q).value;
    var r := t.requests[q];
    LeasesAfter(s.requests, q, r);
    TotalsAfter(s.requests, q, r);
    forall o ensures CountOf(t.counts, o) == |Kind(t.requests, o)| { KindAfter(s.requests, q, r, o); }
  }

  lemma CountTotalKeeps(cfg: Config, s: State, q: nat)
    requires Inv(cfg, s) && CountTotalStep(s, q).Some?
    ensures Inv(cfg, CountTotalStep(s, q).value)
  {
    assert RequestAt(cfg, s, q);
    CountKeepsRequest(cfg.strict, s.closed, s.requests[q], PlaceOf(s, q));
    CountTotalAccounts(cfg, s, q);
    OneRequestKeeps(cfg, s, CountTotalStep(s, q).value, q);
  }

  lemma WorkerKeeps(cfg: Config, s: State, q: nat, result: Option<Outcome>)
    requires Inv(cfg, s) && WorkerStep(s, q, result).Some?
    ensures Inv(cfg, WorkerStep(s, q, result).value)
    ensures var r, u := s.requests[q], WorkerStep(s, q, result).value.requests[q];
            if r.claimed.Some? then u == r.(stage := Finished(None))
            else u == r.(stage := Finished(result), claimed := Some(if result.Some? then result.value else Failed))
  {
    var t := WorkerStep(s, q, result).value;
    if s.requests[q].claimed.None? {
      assert RequestAt(cfg, s, q);
      WinKeepsRequest(cfg.strict, s.closed, s.requests[q], PlaceOf(s, q), result);
      ClaimKeepsAccounts(cfg, s, q, if result.Some? then result.value else Failed, Finished(result), t);
    } else {
      assert RequestAt(cfg, s, q);
      LoseKeepsRequest(cfg.strict, s.closed, s.requests[q], PlaceOf(s, q));
      AccountsKept(cfg, s, q, t.requests[q], t);
    }
    OneRequestKeeps(cfg, s, t, q);
  }

  lemma PushKeeps(cfg: Config, s: State, q: nat, t: State)
    requires Inv(cfg, s) && PushStep(s, q) == Some(t)
    ensures Inv(cfg, t)
  {
    var u := Set(s, q, s.requests[q].(stage := if s.closed then Discarded else Posted(s.requests[q].stage.result)));
    assert RequestAt(cfg, s, q);
    PushKeepsRequest(cfg.strict, s.closed, s.requests[q], PlaceOf(s, q));
    AccountsKept(cfg, s, q, u.requests[q], u);
    OneRequestKeeps(cfg, s, u, q);
    if !s.closed { WakeKeeps(cfg, u); }
  }

  lemma SpawnKeeps(cfg: Config, s: State, q: nat)
    requires Inv(cfg, s) && SpawnStep(s, q).Some?
    ensures Inv(cfg, SpawnStep(s, q).value)
  {
    var t := SpawnStep(s, q).value;
    assert RequestAt(cfg, s, q);
    SpawnKeepsRequest(cfg.strict, s.closed, s.requests[q], PlaceOf(s, q));
    AccountsKept(cfg, s, q, t.requests[q], t);
    OneRequestKeeps(cfg, s, t, q);
  }

  /** Steps that touch no request and none of the executor's sets. */
  lemma TakeKeeps(cfg: Config, s: State, t: State)
    requires Inv(cfg, s) && TakeStep(s) == Some(t)
    ensures Inv(cfg, t)
  {
    var u := s.(results := s.results[1..]);
    OutgoingKept(cfg, s, u);
    SamePlaces(cfg, s, u);
    WakeKeeps(cfg, u);
  }

  lemma SamePlaces(cfg: Config, s: State, t: State)
    requires RequestsOk(cfg, s) && t.requests == s.requests && t.closed == s.closed
    requires t.active == s.active && t.ordered == s.ordered
    requires t.popped == s.popped && t.next == s.next && t.emitted == s.emitted
    ensures RequestsOk(cfg, t)
  {
    forall q: nat | q < |t.requests| ensures RequestAt(cfg, t, q) {
      assert PlaceOf(t, q) == PlaceOf(s, q) && RequestAt(cfg, s, q);
    }
  }

  /** A new request is nowhere yet. */
  lemma NewcomerIsNowhere(cfg: Config, s: State)
    requires OutgoingOk(cfg, s)
    ensures |s.requests| !in s.emitted
  {
    forall d | d in Outgoing(s) ensures d.q < |s.requests| {
      var i :| 0 <= i < |Outgoing(s)| && Outgoing(s)[i] == d;
      assert Truthful(s, Outgoing(s)[i]);
    }
  }

  /** What an accepted submission adds, before it notifies the executor. */
  function Submitted(s: State): State
    requires s.held > 0
  {
    s.(held := s.held - 1, requests := s.requests + [Request(Queued, false, None, true, false, false)],
       input := s.input + [|s.requests|])
  }

  lemma NewLease(requests: seq<Request>, r: Request)
    requires r.lease && !r.kindCounted && !r.totalCounted
    ensures Leases(requests + [r]) == Leases(requests) + {|requests|}
    ensures |Leases(requests + [r])| == |Leases(requests)| + 1
    ensures Totals(requests + [r]) == Totals(requests)
    ensures forall o :: Kind(requests + [r], o) == Kind(requests, o)
  {
    assert Leases(requests + [r]) == Leases(requests) + {|requests|};
    assert Totals(requests + [r]) == Totals(requests);
    forall o ensures Kind(requests + [r], o) == Kind(requests, o) { }
  }

  lemma SubmittedAccounts(cfg: Config, s: State)
    requires AccountsOk(cfg, s) && s.held > 0
    ensures AccountsOk(cfg, Submitted(s))
  {
    NewLease(s.requests, Request(Queued, false, None, true, false, false));
  }

  lemma SubmittedRequests(cfg: Config, s: State)
    requires Inv(cfg, s) && s.held > 0 && !s.closed
    ensures RequestsOk(cfg, Submitted(s))
  {
    var t := Submitted(s);
    NewcomerIsNowhere(cfg, s);
    forall q: nat | q < |t.requests| ensures RequestAt(cfg, t, q) {
      assert PlaceOf(t, q) == PlaceOf(s, q);
      if q < |s.requests| { assert RequestAt(cfg, s, q); }
    }
  }

  lemma SubmittedInput(s: State)
    requires InputOk(s) && s.held > 0 && !s.closed
    ensures InputOk(Submitted(s)) && ClaimsStay(s, Submitted(s))
  {
  }

  lemma SubmittedKeeps(cfg: Config, s: State, t: State)
    requires Inv(cfg, s) && s.held > 0 && !s.closed && t == Submitted(s)
    ensures Inv(cfg, t)
  {
    SubmittedAccounts(cfg, s);
    SubmittedRequests(cfg, s);
    SubmittedInput(s);
    OutgoingKept(cfg, s, t);
  }

  lemma RefusedKeeps(cfg: Config, s: State, t: State)
    requires Inv(cfg, s) && t == s.(held := t.held, inFlight := t.inFlight)
    requires s.held == t.held + 1 && s.inFlight == t.inFlight + 1
    ensures Inv(cfg, t)
  {
    OutgoingKept(cfg, s, t);
    SamePlaces(cfg, s, t);
  }

  lemma AcceptedKeeps(cfg: Config, s: State, t: State)
    requires Inv(cfg, s) && s.held > 0 && !s.closed && t == Wake(Submitted(s))
    ensures Inv(cfg, t)
  {
    SubmittedKeeps(cfg, s, Submitted(s));
    WakeKeeps(cfg, Submitted(s));
  }

  lemma SubmitKeeps(cfg: Config, s: State, refused: bool, t: State)
    requires Inv(cfg, s) && SubmitStep(cfg, s, refused) == Some(t)
    ensures Inv(cfg, t)
  {
    if refused || s.closed || |s.input| >= cfg.inputCapacity {
      RefusedKeeps(cfg, s, t);
    } else {
      AcceptedKeeps(cfg, s, t);
    }
  }

  // ---------------------------------------------------------------- steps over all requests

  predicate SameCounted(r: Request, u: Request) {
    u.claimed == r.claimed && u.kindCounted == r.kindCounted && u.totalCounted == r.totalCounted
  }

  lemma CountedStays(before: seq<Request>, now: seq<Request>)
    requires |now| == |before| && forall q :: 0 <= q < |now| ==> SameCounted(before[q], now[q])
    ensures Totals(now) == Totals(before)
    ensures forall o :: Kind(now, o) == Kind(before, o)
  {
    forall q: nat ensures q in Totals(now) <==> q in Totals(before) {
      if q < |now| { assert SameCounted(before[q], now[q]); }
    }
    forall o, q: nat ensures q in Kind(now, o) <==> q in Kind(before, o) {
      if q < |now| { assert SameCounted(before[q], now[q]); }
    }
    forall o ensures Kind(now, o) == Kind(before, o) { }
  }

  lemma CloseKeepsRequest(cfg: Config, s: State, q: nat)
    requires RequestsOk(cfg, s) && !s.closed && q < |s.requests|
    ensures RequestOk(cfg.strict, true, CloseOne(s, q), PlaceOf(s, q))
    ensures SameCounted(s.requests[q], CloseOne(s, q)) && (CloseOne(s, q).lease ==> s.requests[q].lease)
  {
    assert RequestAt(cfg, s, q);
  }

  lemma CloseAccounts(cfg: Config, s: State)
    requires Inv(cfg, s) && CloseStep(s).Some?
    ensures AccountsOk(cfg, CloseStep(s).value)
  {
    var t := CloseStep(s).value;
    forall q | 0 <= q < |t.requests|
      ensures SameCounted(s.requests[q], t.requests[q]) && (t.requests[q].lease ==> s.requests[q].lease)
    {
      CloseKeepsRequest(cfg, s, q);
    }
    CountedStays(s.requests, t.requests);
    SubsetSize(Leases(t.requests), Leases(s.requests));
  }

  lemma CloseRequests(cfg: Config, s: State)
    requires Inv(cfg, s) && CloseStep(s).Some?
    ensures RequestsOk(cfg, CloseStep(s).value) && ClaimsStay(s, CloseStep(s).value)
  {
    var t := CloseStep(s).value;
    forall q: nat | q < |t.requests|
      ensures RequestAt(cfg, t, q) && t.requests[q].claimed == s.requests[q].claimed
    {
      assert PlaceOf(t, q) == PlaceOf(s, q);
      CloseKeepsRequest(cfg, s, q);
    }
  }

  /** Closing sets aside what was queued or posted and releases the leases nobody can claim any more. */
  lemma CloseKeeps(cfg: Config, s: State)
    requires Inv(cfg, s) && CloseStep(s).Some?
    ensures Inv(cfg, CloseStep(s).value)
  {
    CloseAccounts(cfg, s);
    CloseRequests(cfg, s);
    OutgoingKept(cfg, s, CloseStep(s).value);
  }

  lemma DrainKeepsRequest(strict: bool, closed: bool, r: Request, p: Place)
    requires RequestOk(strict, closed, r, p)
    ensures RequestOk(strict, closed, DrainOne(r), p) && SameCounted(r, DrainOne(r)) && DrainOne(r).lease == r.lease
  {
  }

  lemma DrainRequests(cfg: Config, s: State)
    requires Inv(cfg, s) && DrainStep(s).Some?
    ensures RequestsOk(cfg, DrainStep(s).value) && ClaimsStay(s, DrainStep(s).value)
    ensures AccountsOk(cfg, DrainStep(s).value)
  {
    var t := DrainStep(s).value;
    forall q: nat | q < |t.requests|
      ensures RequestAt(cfg, t, q)
      ensures SameCounted(s.requests[q], t.requests[q]) && t.requests[q].lease == s.requests[q].lease
    {
      assert PlaceOf(t, q) == PlaceOf(s, q);
      assert RequestAt(cfg, s, q);
      DrainKeepsRequest(cfg.strict, s.closed, s.requests[q], PlaceOf(s, q));
    }
    CountedStays(s.requests, t.requests);
    assert Leases(t.requests) == Leases(s.requests);
  }

  lemma DrainKeeps(cfg: Config, s: State)
    requires Inv(cfg, s) && DrainStep(s).Some?
    ensures Inv(cfg, DrainStep(s).value)
  {
    DrainRequests(cfg, s);
    OutgoingKept(cfg, s, DrainStep(s).value);
  }
}
