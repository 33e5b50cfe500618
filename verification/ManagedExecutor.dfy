/** The executor's own steps keep the invariant of the managed stream. */
module ManagedExecutor {
  import opened Optional
  import opened FiniteSets
  import opened ManagedModel
  import opened ManagedInvariant
  import opened ManagedSteps

  /** Only request `q`, and what the executor knows about it, changes. */
  ghost predicate OnlyPlace(s: State, t: State, q: nat) {
    && q < |s.requests| == |t.requests| && t.closed == s.closed
    && forall k: nat :: k < |s.requests| && k != q ==> t.requests[k] == s.requests[k] && PlaceOf(t, k) == PlaceOf(s, k)
  }

  lemma RequestsAround(cfg: Config, s: State, t: State, q: nat)
    requires RequestsOk(cfg, s) && OnlyPlace(s, t, q)
    requires RequestAt(cfg, t, q)
    ensures RequestsOk(cfg, t)
  {
    forall k: nat | k < |t.requests| ensures RequestAt(cfg, t, k) {
      if k != q { assert RequestAt(cfg, s, k); }
    }
  }

  // ---------------------------------------------------------------- processing one completion

  lemma ProcessKeepsRequest(strict: bool, closed: bool, r: Request, p: Place, p': Place)
    requires RequestOk(strict, closed, r, p) && r.stage.Drained?
    requires p' == p.(act := false,
                      ord := if strict && !p.passed && p.ord.None? then Some(r.stage.result) else p.ord,
                      out := p.out || (!strict && r.stage.result.Some?))
    ensures RequestOk(strict, closed, r.(stage := Retired), p')
  {
  }

  lemma ProcessRequests(cfg: Config, s: State, q: nat)
    requires RequestsOk(cfg, s) && ProcessStep(cfg, s, q).Some?
    ensures RequestsOk(cfg, ProcessStep(cfg, s, q).value)
  {
    var t := ProcessStep(cfg, s, q).value;
    assert RequestAt(cfg, s, q);
    ProcessKeepsRequest(cfg.strict, s.closed, s.requests[q], PlaceOf(s, q), PlaceOf(t, q));
    RequestsAround(cfg, s, t, q);
  }

  lemma ProcessOutgoing(cfg: Config, s: State, q: nat)
    requires OutgoingOk(cfg, s) && ProcessStep(cfg, s, q).Some? && RequestAt(cfg, s, q)
    ensures OutgoingOk(cfg, ProcessStep(cfg, s, q).value)
  {
    var t := ProcessStep(cfg, s, q).value;
    var result := s.requests[q].stage.result;
    assert t.requests[q].claimed == s.requests[q].claimed;
    if !cfg.strict && result.Some? {
      var d := Delivery(q, result.value);
      assert CarriesResult(s.requests[q].stage) && OwnerOk(s.requests[q]);
      assert Outgoing(t) == Outgoing(s) + [d];
      OutgoingGrows(cfg, s, t, d);
    } else {
      OutgoingKept(cfg, s, t);
    }
  }

  lemma KeysAfter(m: map<nat, Option<Outcome>>, q: nat, v: Option<Outcome>)
    ensures m[q := v].Keys == m.Keys + {q} && (m - {q}).Keys == m.Keys - {q}
  {
  }

  lemma RetireFits(cfg: Config, active: set<nat>, ordered: set<nat>, emitted: set<nat>, relaxed: nat, q: nat)
    requires Fits(cfg, active, ordered, emitted, relaxed) && q in active
    ensures Fits(cfg, active - {q}, ordered, emitted, relaxed)
    ensures Fits(cfg, active - {q}, ordered + {q}, emitted, relaxed)
    ensures q !in emitted ==> Fits(cfg, active - {q}, ordered, emitted + {q}, relaxed + 1)
  {
    SubsetSize(active - {q}, active);
    SubsetSize((active - {q}) + ordered, active + ordered);
    SubsetSize((active - {q}) + (ordered + {q}), active + ordered);
    SubsetSize((active - {q}) - emitted, active - emitted);
    if q !in emitted {
      assert active - emitted == ((active - {q}) - (emitted + {q})) + {q};
    }
  }

  lemma ProcessSets(cfg: Config, s: State, q: nat, t: State)
    requires ProcessStep(cfg, s, q) == Some(t)
    ensures t.active == s.active - {q}
    ensures t.ordered.Keys == s.ordered.Keys || t.ordered.Keys == s.ordered.Keys + {q}
    ensures (t.emitted == s.emitted && t.relaxed == s.relaxed)
         || (!cfg.strict && s.requests[q].stage.result.Some? && t.ordered == s.ordered && t.emitted == s.emitted + {q}
             && |t.relaxed| == |s.relaxed| + 1)
  {
    KeysAfter(s.ordered, q, s.requests[q].stage.result);
  }

  lemma ProcessWindow(cfg: Config, s: State, q: nat, t: State)
    requires WindowOk(cfg, s) && ProcessStep(cfg, s, q) == Some(t) && q in s.active
    requires !cfg.strict && s.requests[q].stage.result.Some? ==> q !in s.emitted
    ensures WindowOk(cfg, t)
  {
    ProcessSets(cfg, s, q, t);
    RetireFits(cfg, s.active, s.ordered.Keys, s.emitted, |s.relaxed|, q);
  }

  lemma ProcessRest(cfg: Config, s: State, q: nat, t: State)
    requires InputOk(s) && KnownOk(s) && AccountsOk(cfg, s) && ProcessStep(cfg, s, q) == Some(t) && q in s.active
    ensures InputOk(t) && KnownOk(t) && AccountsOk(cfg, t)
  {
    ProcessSets(cfg, s, q, t);
    AccountsKept(cfg, s, q, t.requests[q], t);
    assert forall k :: k in t.ordered ==> k in t.ordered.Keys;
  }

  lemma ProcessKeeps(cfg: Config, s: State, q: nat, t: State)
    requires Inv(cfg, s) && ProcessStep(cfg, s, q) == Some(t)
    ensures Inv(cfg, t)
  {
    assert RequestAt(cfg, s, q);
    ProcessRequests(cfg, s, q);
    ProcessOutgoing(cfg, s, q);
    ProcessWindow(cfg, s, q, t);
    ProcessRest(cfg, s, q, t);
  }

  // ---------------------------------------------------------------- sweeping one active request

  lemma SweepFits(cfg: Config, active: set<nat>, ordered: set<nat>, emitted: set<nat>, relaxed: nat, q: nat)
    requires Fits(cfg, active, ordered, emitted, relaxed) && q in active
    ensures Fits(cfg, active, ordered + {q}, emitted, relaxed)
    ensures q !in emitted ==> Fits(cfg, active, ordered, emitted + {q}, relaxed + 1)
  {
    assert active + (ordered + {q}) == active + ordered;
    if q !in emitted {
      assert active - emitted == (active - (emitted + {q})) + {q};
    }
  }

  lemma SweepCancelKeepsRequest(strict: bool, closed: bool, r: Request, p: Place)
    requires RequestOk(strict, closed, r, p) && r.cancelFlag && strict && p.act && !p.passed && p.ord.None?
    ensures RequestOk(strict, closed, r, p.(ord := Some(None)))
  {
  }

  lemma ExpireKeepsRequest(strict: bool, closed: bool, r: Request, p: Place, p': Place)
    requires RequestOk(strict, closed, r, p) && !r.cancelFlag && r.claimed.None? && p.act
    requires p' == if strict then p.(ord := if p.ord.None? then Some(Some(TimedOut)) else p.ord) else p.(out := true)
    ensures RequestOk(strict, closed, r.(claimed := Some(TimedOut)), p')
  {
  }

  /** Marking an active, cancelled request as resolved without a result. */
  lemma SkipKeeps(cfg: Config, s: State, q: nat, t: State)
    requires Inv(cfg, s) && cfg.strict && q < |s.requests| && q in s.active
    requires s.next <= q && q !in s.ordered && s.requests[q].cancelFlag
    requires t == s.(ordered := s.ordered[q := None])
    ensures Inv(cfg, t)
  {
    SkipWindow(cfg, s, q, t);
    OutgoingKept(cfg, s, t);
    SkipRequests(cfg, s, q, t);
  }

  lemma SkipWindow(cfg: Config, s: State, q: nat, t: State)
    requires WindowOk(cfg, s) && KnownOk(s) && q in s.active && t == s.(ordered := s.ordered[q := None])
    ensures WindowOk(cfg, t) && KnownOk(t)
  {
    KeysAfter(s.ordered, q, None);
    SweepFits(cfg, s.active, s.ordered.Keys, s.emitted, |s.relaxed|, q);
  }

  lemma SkipRequests(cfg: Config, s: State, q: nat, t: State)
    requires RequestsOk(cfg, s) && cfg.strict && q < |s.requests| && q in s.active
    requires s.next <= q && q !in s.ordered && s.requests[q].cancelFlag
    requires t == s.(ordered := s.ordered[q := None])
    ensures RequestsOk(cfg, t)
  {
    assert RequestAt(cfg, s, q);
    assert PlaceOf(t, q) == PlaceOf(s, q).(ord := Some(None));
    SweepCancelKeepsRequest(cfg.strict, s.closed, s.requests[q], PlaceOf(s, q));
    RequestsAround(cfg, s, t, q);
  }

  lemma ExpireRequests(cfg: Config, s: State, q: nat)
    requires RequestsOk(cfg, s) && q < |s.requests| && q in s.active
    requires !s.requests[q].cancelFlag && s.requests[q].claimed.None?
    ensures RequestsOk(cfg, Expire(cfg, s, q))
  {
    var t := Expire(cfg, s, q);
    assert RequestAt(cfg, s, q);
    ExpireKeepsRequest(cfg.strict, s.closed, s.requests[q], PlaceOf(s, q), PlaceOf(t, q));
    RequestsAround(cfg, s, t, q);
  }

  lemma ExpireOutgoing(cfg: Config, s: State, q: nat)
    requires RequestsOk(cfg, s) && OutgoingOk(cfg, s) && q < |s.requests| && s.requests[q].claimed.None?
    ensures OutgoingOk(cfg, Expire(cfg, s, q))
  {
    var t := Expire(cfg, s, q);
    assert RequestAt(cfg, s, q);
    if cfg.strict {
      OutgoingKept(cfg, s, t);
    } else {
      var d := Delivery(q, TimedOut);
      assert Outgoing(t) == Outgoing(s) + [d];
      OutgoingGrows(cfg, s, t, d);
    }
  }

  lemma ExpireSets(cfg: Config, s: State, q: nat, t: State)
    requires q < |s.requests| && t == Expire(cfg, s, q)
    ensures t.active == s.active
    ensures t.ordered.Keys == s.ordered.Keys || t.ordered.Keys == s.ordered.Keys + {q}
    ensures (t.emitted == s.emitted && t.relaxed == s.relaxed)
         || (!cfg.strict && t.ordered == s.ordered && t.emitted == s.emitted + {q} && |t.relaxed| == |s.relaxed| + 1)
  {
    KeysAfter(s.ordered, q, Some(TimedOut));
  }

  lemma ExpireWindow(cfg: Config, s: State, q: nat, t: State)
    requires WindowOk(cfg, s) && q < |s.requests| && t == Expire(cfg, s, q) && q in s.active && q !in s.emitted
    ensures WindowOk(cfg, t)
  {
    ExpireSets(cfg, s, q, t);
    SweepFits(cfg, s.active, s.ordered.Keys, s.emitted, |s.relaxed|, q);
  }

  lemma ExpireRest(cfg: Config, s: State, q: nat, t: State)
    requires InputOk(s) && KnownOk(s) && AccountsOk(cfg, s)
    requires q < |s.requests| && t == Expire(cfg, s, q) && q in s.active
    requires OwnerOk(s.requests[q]) && s.requests[q].claimed.None?
    ensures InputOk(t) && KnownOk(t) && AccountsOk(cfg, t)
  {
    ExpireSets(cfg, s, q, t);
    ClaimKeepsAccounts(cfg, s, q, TimedOut, s.requests[q].stage, t);
    assert forall k :: k in t.ordered ==> k in t.ordered.Keys;
  }

  lemma ExpireKeeps(cfg: Config, s: State, q: nat, t: State)
    requires Inv(cfg, s) && q < |s.requests| && q in s.active
    requires !s.requests[q].cancelFlag && s.requests[q].claimed.None?
    requires t == Expire(cfg, s, q)
    ensures Inv(cfg, t)
  {
    assert RequestAt(cfg, s, q);
    ExpireRequests(cfg, s, q);
    ExpireOutgoing(cfg, s, q);
    ExpireWindow(cfg, s, q, t);
    ExpireRest(cfg, s, q, t);
  }

  lemma SweepFlaggedKeeps(cfg: Config, s: State, q: nat, due: bool, t: State)
    requires Inv(cfg, s) && SweepStep(cfg, s, q, due) == Some(t) && s.requests[q].cancelFlag
    ensures Inv(cfg, t)
  {
    var u := s.(pc := Sweeping(s.pc.todo - {q}));
    PcKeeps(cfg, s, Sweeping(s.pc.todo - {q}));
    if cfg.strict && q >= s.next && q !in s.ordered { SkipKeeps(cfg, u, q, t); }
  }

  lemma SweepCleanKeeps(cfg: Config, s: State, q: nat, due: bool, t: State)
    requires Inv(cfg, s) && SweepStep(cfg, s, q, due) == Some(t) && !s.requests[q].cancelFlag
    ensures Inv(cfg, t)
  {
    var u := s.(pc := Sweeping(s.pc.todo - {q}));
    var v := u.(park := s.park.(clean := s.park.clean + {q}));
    PcKeeps(cfg, s, Sweeping(s.pc.todo - {q}));
    BookkeepingKeeps(cfg, u, v);
    if due && s.requests[q].claimed.None? { ExpireKeeps(cfg, v, q, t); }
  }

  lemma SweepKeeps(cfg: Config, s: State, q: nat, due: bool)
    requires Inv(cfg, s) && SweepStep(cfg, s, q, due).Some?
    ensures Inv(cfg, SweepStep(cfg, s, q, due).value)
  {
    if s.requests[q].cancelFlag {
      SweepFlaggedKeeps(cfg, s, q, due, SweepStep(cfg, s, q, due).value);
    } else {
      SweepCleanKeeps(cfg, s, q, due, SweepStep(cfg, s, q, due).value);
    }
  }

  // ---------------------------------------------------------------- delivering

  lemma HandOverOutgoing(cfg: Config, s: State, t: State)
    requires OutgoingOk(cfg, s) && s.relaxed != [] && |s.results| < cfg.resultCapacity && t == RelaxedRound(cfg, s)
    ensures OutgoingOk(cfg, t)
  {
    assert Outgoing(t) == Outgoing(s);
    forall i | 0 <= i < |Outgoing(t)| ensures Truthful(t, Outgoing(t)[i]) { assert Truthful(s, Outgoing(s)[i]); }
  }

  lemma HandOverWindow(cfg: Config, s: State, t: State)
    requires WindowOk(cfg, s) && s.relaxed != [] && |s.results| < cfg.resultCapacity && t == RelaxedRound(cfg, s)
    ensures WindowOk(cfg, t)
  {
  }

  lemma RelaxedRoundKeeps(cfg: Config, s: State, t: State)
    requires Inv(cfg, s) && s.pc.DeliverRelaxed? && t == RelaxedRound(cfg, s)
    ensures Inv(cfg, t)
  {
    if |s.results| < cfg.resultCapacity && s.relaxed != [] {
      HandOverOutgoing(cfg, s, t);
      HandOverWindow(cfg, s, t);
      SamePlaces(cfg, s, t);
    } else {
      PcKeeps(cfg, s, DeliverStrict);
    }
  }

  lemma PassKeepsRequest(r: Request, p: Place)
    requires RequestOk(true, false, r, p) && p.ord.Some?
    ensures RequestOk(true, false, r, p.(ord := None, passed := true, out := p.out || p.ord.value.Some?))
  {
  }

  lemma StrictRoundRequests(cfg: Config, s: State)
    requires Inv(cfg, s) && s.pc.DeliverStrict? && cfg.strict && s.next in s.ordered
    requires s.ordered[s.next].None? || |s.results| < cfg.resultCapacity
    ensures RequestsOk(cfg, StrictRound(cfg, s)) && s.next < s.popped
  {
    var t := StrictRound(cfg, s);
    var q := s.next;
    assert PlaceOf(t, q) == PlaceOf(s, q).(ord := None, passed := true, out := q in s.emitted || s.ordered[q].Some?);
    assert RequestAt(cfg, s, q);
    PassKeepsRequest(s.requests[q], PlaceOf(s, q));
    RequestsAround(cfg, s, t, q);
  }

  lemma StrictRoundOutgoing(cfg: Config, s: State)
    requires Inv(cfg, s) && s.pc.DeliverStrict? && cfg.strict && s.next in s.ordered
    requires s.ordered[s.next].None? || |s.results| < cfg.resultCapacity
    ensures OutgoingOk(cfg, StrictRound(cfg, s))
  {
    var t := StrictRound(cfg, s);
    var q := s.next;
    assert RequestAt(cfg, s, q);
    if s.ordered[q].Some? {
      var d := Delivery(q, s.ordered[q].value);
      assert Outgoing(t) == Outgoing(s) + [d];
      OutgoingGrows(cfg, s, t, d);
    } else {
      assert Outgoing(t) == Outgoing(s);
      forall i | 0 <= i < |Outgoing(t)| ensures Truthful(t, Outgoing(t)[i]) { assert Truthful(s, Outgoing(s)[i]); }
    }
  }

  lemma StrictRoundWindow(cfg: Config, s: State, t: State)
    requires WindowOk(cfg, s) && s.next in s.ordered && t.active == s.active && t.ordered == s.ordered - {s.next}
    requires cfg.strict && t.relaxed == s.relaxed
    ensures WindowOk(cfg, t)
  {
    KeysAfter(s.ordered, s.next, None);
    SubsetSize(t.active + t.ordered.Keys, s.active + s.ordered.Keys);
  }

  lemma StrictRoundRest(cfg: Config, s: State, t: State)
    requires InputOk(s) && KnownOk(s) && AccountsOk(cfg, s) && s.next < s.popped
    requires t.requests == s.requests && t.held == s.held && t.inFlight == s.inFlight && t.counts == s.counts
    requires t.popped == s.popped && t.next == s.next + 1 && t.input == s.input && t.closed == s.closed && t.pc == s.pc
    requires t.active == s.active && t.ordered == s.ordered - {s.next}
    ensures InputOk(t) && KnownOk(t) && AccountsOk(cfg, t)
  {
  }

  lemma StrictHandOnKeeps(cfg: Config, s: State, t: State)
    requires Inv(cfg, s) && s.pc.DeliverStrict? && cfg.strict && s.next in s.ordered && t == StrictRound(cfg, s)
    requires s.ordered[s.next].None? || |s.results| < cfg.resultCapacity
    ensures Inv(cfg, t)
  {
    StrictRoundRequests(cfg, s);
    StrictRoundOutgoing(cfg, s);
    StrictRoundWindow(cfg, s, t);
    StrictRoundRest(cfg, s, t);
  }

  lemma StrictRoundKeeps(cfg: Config, s: State)
    requires Inv(cfg, s) && s.pc.DeliverStrict?
    ensures Inv(cfg, StrictRound(cfg, s))
  {
    if !cfg.strict || s.next !in s.ordered || (s.ordered[s.next].Some? && |s.results| >= cfg.resultCapacity) {
      PcKeeps(cfg, s, Admitting);
    } else {
      StrictHandOnKeeps(cfg, s, StrictRound(cfg, s));
    }
  }

  lemma ExecutorKeeps(cfg: Config, s: State)
    requires Inv(cfg, s) && ExecutorStep(cfg, s).Some?
    ensures Inv(cfg, ExecutorStep(cfg, s).value)
  {
    match s.pc
    case Processing => PcKeeps(cfg, s, Sweeping(s.active));
    case Sweeping(_) => PcKeeps(cfg, s, if s.closed then Ended else DeliverRelaxed);
    case DeliverRelaxed => RelaxedRoundKeeps(cfg, s, RelaxedRound(cfg, s));
    case DeliverStrict => StrictRoundKeeps(cfg, s);
    case Spawning => PcKeeps(cfg, s, Draining);
    case _ =>
  }

  // ---------------------------------------------------------------- admitting

  predicate Admissible(cfg: Config, s: State) {
    s.pc.Admitting? && CanAdmit(cfg, s)
  }

  lemma AdmitFits(cfg: Config, active: set<nat>, ordered: set<nat>, emitted: set<nat>, relaxed: nat, q: nat)
    requires |active| + |ordered - active| + relaxed < cfg.maxInFlight && q !in active && q !in ordered && q !in emitted
    ensures Fits(cfg, active, ordered, emitted, relaxed)
    ensures Fits(cfg, active + {q}, ordered, emitted, relaxed)
    ensures Fits(cfg, active, ordered + {q}, emitted, relaxed)
    ensures Fits(cfg, active, ordered, emitted + {q}, relaxed + 1)
  {
    assert active + ordered == active + (ordered - active);
    assert (active + {q}) + ordered == (active + ordered) + {q};
    assert active + (ordered + {q}) == (active + ordered) + {q};
    SubsetSize(active - emitted, active);
    SubsetSize((active + {q}) - emitted, active + {q});
    assert active - (emitted + {q}) == active - emitted;
  }

  lemma AdmitCancelledKeepsRequest(strict: bool, r: Request, p: Place)
    requires RequestOk(strict, false, r, p) && r.stage.Queued? && r.cancelFlag
    ensures RequestOk(strict, false, r.(stage := Retired),
                      p.(popped := true, ord := if strict then Some(None) else p.ord))
  {
  }

  lemma AdmitExpiredKeepsRequest(strict: bool, r: Request, p: Place, p': Place)
    requires RequestOk(strict, false, r, p) && r.stage.Queued? && r.claimed.None? && !r.cancelFlag
    requires p' == if strict then p.(popped := true, ord := Some(Some(TimedOut))) else p.(popped := true, out := true)
    ensures RequestOk(strict, false, r.(stage := Retired, claimed := Some(TimedOut)), p')
  {
  }

  lemma AdmitLaunchKeepsRequest(strict: bool, r: Request, p: Place)
    requires RequestOk(strict, false, r, p) && r.stage.Queued? && !r.cancelFlag
    ensures RequestOk(strict, false, r.(stage := Launching), p.(popped := true, act := true))
  {
  }

  /** The request at the front of the input is the one after the last popped, and nobody has placed it yet. */
  lemma FrontIsNext(cfg: Config, s: State)
    requires Inv(cfg, s) && Admissible(cfg, s)
    ensures !s.closed && s.input[0] == s.popped < |s.requests| && s.requests[s.popped].stage.Queued?
    ensures s.popped !in s.active && s.popped !in s.ordered && s.popped !in s.emitted
  {
    assert RequestAt(cfg, s, s.popped);
  }

  lemma AdmitCancelledRequests(cfg: Config, s: State, q: nat, t: State)
    requires RequestsOk(cfg, s) && !s.closed && q == s.popped < |s.requests|
    requires s.input != [] && t == AdmitCancelled(cfg, Popped(s), q)
    requires s.requests[q].cancelFlag && s.requests[q].stage.Queued?
    ensures RequestsOk(cfg, t)
  {
    assert RequestAt(cfg, s, q);
    AdmitCancelledKeepsRequest(cfg.strict, s.requests[q], PlaceOf(s, q));
    assert PlaceOf(t, q) == PlaceOf(s, q).(popped := true, ord := if cfg.strict then Some(None) else PlaceOf(s, q).ord);
    RequestsAround(cfg, s, t, q);
  }

  lemma AdmitExpiredRequests(cfg: Config, s: State, q: nat, t: State)
    requires RequestsOk(cfg, s) && !s.closed && q == s.popped < |s.requests|
    requires s.input != [] && t == AdmitExpired(cfg, Popped(s), q)
    requires !s.requests[q].cancelFlag && s.requests[q].claimed.None? && s.requests[q].stage.Queued?
    ensures RequestsOk(cfg, t)
  {
    assert RequestAt(cfg, s, q);
    AdmitExpiredKeepsRequest(cfg.strict, s.requests[q], PlaceOf(s, q), PlaceOf(t, q));
    RequestsAround(cfg, s, t, q);
  }

  lemma AdmitLaunchRequests(cfg: Config, s: State, q: nat, t: State)
    requires RequestsOk(cfg, s) && !s.closed && q == s.popped < |s.requests|
    requires s.input != [] && t == AdmitLaunch(Popped(s), q)
    requires !s.requests[q].cancelFlag && s.requests[q].stage.Queued?
    ensures RequestsOk(cfg, t)
  {
    assert RequestAt(cfg, s, q);
    AdmitLaunchKeepsRequest(cfg.strict, s.requests[q], PlaceOf(s, q));
    assert PlaceOf(t, q) == PlaceOf(s, q).(popped := true, act := true);
    RequestsAround(cfg, s, t, q);
  }

  lemma AdmitExpiredOutgoing(cfg: Config, s: State, q: nat, t: State)
    requires OutgoingOk(cfg, s) && q < |s.requests| && s.input != [] && s.requests[q].claimed.None? && q !in s.emitted
    requires t == AdmitExpired(cfg, Popped(s), q)
    ensures OutgoingOk(cfg, t)
  {
    if cfg.strict {
      OutgoingKept(cfg, s, t);
    } else {
      var d := Delivery(q, TimedOut);
      assert Outgoing(t) == Outgoing(s) + [d];
      OutgoingGrows(cfg, s, t, d);
    }
  }

  /** Popping the front of the input, and any change of the executor's sets by that one request. */
  predicate PopsOne(cfg: Config, s: State, t: State, q: nat) {
    && s.input != [] && q == s.input[0] == s.popped < |s.requests| == |t.requests| && !s.closed && !t.closed
    && t.input == s.input[1..] && t.popped == s.popped + 1 && t.next == s.next && t.pc == s.pc
    && (t.active == s.active || t.active == s.active + {q})
    && (t.ordered.Keys == s.ordered.Keys || t.ordered.Keys == s.ordered.Keys + {q})
    && (t.emitted == s.emitted || t.emitted == s.emitted + {q})
    && (t.active != s.active ==> t.ordered == s.ordered && t.emitted == s.emitted && t.relaxed == s.relaxed)
    && (t.ordered.Keys != s.ordered.Keys ==> t.active == s.active && t.emitted == s.emitted && t.relaxed == s.relaxed)
    && |t.relaxed| == |s.relaxed| + (if t.emitted == s.emitted then 0 else 1)
  }

  lemma PopKeepsInput(cfg: Config, s: State, t: State, q: nat)
    requires InputOk(s) && KnownOk(s) && s.pc.Admitting? && PopsOne(cfg, s, t, q)
    ensures InputOk(t) && KnownOk(t)
  {
    assert forall k :: k in t.ordered ==> k in t.ordered.Keys;
  }

  lemma PopKeepsWindow(cfg: Config, s: State, t: State, q: nat)
    requires !WindowFull(cfg, s) && PopsOne(cfg, s, t, q) && q !in s.active && q !in s.ordered && q !in s.emitted
    ensures WindowOk(cfg, t)
  {
    AdmitFits(cfg, s.active, s.ordered.Keys, s.emitted, |s.relaxed|, q);
  }

  lemma AdmitCancelledPops(cfg: Config, s: State, q: nat, t: State)
    requires Admissible(cfg, s) && q == s.input[0] == s.popped && !s.closed
    requires t == AdmitCancelled(cfg, Popped(s), q)
    ensures PopsOne(cfg, s, t, q)
  {
    KeysAfter(s.ordered, q, None);
  }

  lemma AdmitCancelledBooks(cfg: Config, s: State, q: nat, t: State)
    requires AccountsOk(cfg, s) && OutgoingOk(cfg, s) && q < |s.requests|
    requires s.input != [] && t == AdmitCancelled(cfg, Popped(s), q)
    ensures AccountsOk(cfg, t) && OutgoingOk(cfg, t)
  {
    AccountsKept(cfg, s, q, t.requests[q], t);
    OutgoingKept(cfg, s, t);
  }

  lemma AdmitCancelledKeeps(cfg: Config, s: State, t: State)
    requires Inv(cfg, s) && Admissible(cfg, s) && s.requests[s.input[0]].cancelFlag
    requires t == AdmitCancelled(cfg, Popped(s), s.input[0])
    ensures Inv(cfg, t)
  {
    FrontIsNext(cfg, s);
    var q := s.popped;
    AdmitCancelledPops(cfg, s, q, t);
    PopKeepsInput(cfg, s, t, q);
    PopKeepsWindow(cfg, s, t, q);
    AdmitCancelledRequests(cfg, s, q, t);
    AdmitCancelledBooks(cfg, s, q, t);
  }

  lemma AdmitExpiredPops(cfg: Config, s: State, q: nat, t: State)
    requires Admissible(cfg, s) && q == s.input[0] == s.popped && !s.closed && q !in s.emitted
    requires t == AdmitExpired(cfg, Popped(s), q)
    ensures PopsOne(cfg, s, t, q)
  {
    KeysAfter(s.ordered, q, Some(TimedOut));
    assert q in t.emitted || t.emitted == s.emitted;
  }

  lemma AdmitExpiredKeeps(cfg: Config, s: State, t: State)
    requires Inv(cfg, s) && Admissible(cfg, s) && !s.requests[s.input[0]].cancelFlag
    requires s.requests[s.input[0]].claimed.None?
    requires t == AdmitExpired(cfg, Popped(s), s.input[0])
    ensures Inv(cfg, t)
  {
    FrontIsNext(cfg, s);
    var q := s.popped;
    assert RequestAt(cfg, s, q);
    AdmitExpiredPops(cfg, s, q, t);
    PopKeepsInput(cfg, s, t, q);
    PopKeepsWindow(cfg, s, t, q);
    AdmitExpiredRequests(cfg, s, q, t);
    AdmitExpiredOutgoing(cfg, s, q, t);
    ClaimKeepsAccounts(cfg, s, q, TimedOut, Retired, t);
  }

  lemma AdmitLaunchPops(cfg: Config, s: State, q: nat, t: State)
    requires Admissible(cfg, s) && q == s.input[0] == s.popped && !s.closed
    requires t == AdmitLaunch(Popped(s), q)
    ensures PopsOne(cfg, s, t, q) && ClaimsStay(s, t)
  {
  }

  lemma AdmitLaunchKeeps(cfg: Config, s: State, t: State)
    requires Inv(cfg, s) && Admissible(cfg, s) && !s.requests[s.input[0]].cancelFlag
    requires t == AdmitLaunch(Popped(s), s.input[0])
    ensures Inv(cfg, t)
  {
    FrontIsNext(cfg, s);
    var q := s.popped;
    AdmitLaunchPops(cfg, s, q, t);
    PopKeepsInput(cfg, s, t, q);
    PopKeepsWindow(cfg, s, t, q);
    AdmitLaunchRequests(cfg, s, q, t);
    AccountsKept(cfg, s, q, t.requests[q], t);
    OutgoingKept(cfg, s, t);
  }

  lemma AdmitKeeps(cfg: Config, s: State, due: bool)
    requires Inv(cfg, s) && AdmitStep(cfg, s, due).Some?
    ensures Inv(cfg, AdmitStep(cfg, s, due).value)
  {
    if !Admissible(cfg, s) {
      var u := s.(park := s.park.(timed := DeadlineAhead(s)));
      BookkeepingKeeps(cfg, s, u);
      PcKeeps(cfg, u, AfterAdmission(s));
    } else {
      FrontIsNext(cfg, s);
      assert RequestAt(cfg, s, s.popped);
      if s.requests[s.popped].cancelFlag { AdmitCancelledKeeps(cfg, s, AdmitCancelled(cfg, Popped(s), s.popped)); }
      else if due { AdmitExpiredKeeps(cfg, s, AdmitExpired(cfg, Popped(s), s.popped)); }
      else { AdmitLaunchKeeps(cfg, s, AdmitLaunch(Popped(s), s.popped)); }
    }
  }
}
