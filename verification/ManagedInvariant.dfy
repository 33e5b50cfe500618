/** The inductive invariant of the managed stream, request by request. */
module ManagedInvariant {
  import opened Optional
  import opened ManagedModel

  /** What the executor and the outgoing queues know about one request. */
  datatype Place = Place(act: bool, ord: Option<Option<Outcome>>, popped: bool, passed: bool, out: bool)

  function PlaceOf(s: State, q: nat): Place {
    Place(q in s.active, if q in s.ordered then Some(s.ordered[q]) else None, q < s.popped, q < s.next, q in s.emitted)
  }

  predicate InExecutor(stage: Stage) {
    stage.Launching? || stage.Running? || stage.Finished? || stage.Posted? || stage.Drained?
  }

  predicate HasVerdict(stage: Stage) {
    stage.Finished? || stage.Posted? || stage.Drained?
  }

  predicate CarriesResult(stage: Stage) {
    HasVerdict(stage) && stage.result.Some?
  }

  /** The request's worker can no longer contribute a result. */
  predicate Barren(r: Request) {
    if HasVerdict(r.stage) then r.stage.result.None? else r.claimed.Some?
  }

  /**
   Ownership of the terminal flag and the lease: exactly one winner, who counts itself after
   giving the lease back.
   */
  predicate OwnerOk(r: Request) {
    && (r.claimed.None? && !r.stage.Discarded? ==> r.lease)
    && (r.kindCounted || r.totalCounted ==> r.claimed.Some? && !r.lease)
    && (r.claimed == Some(Cancelled) ==> r.cancelFlag)
    && (r.stage.Queued? && r.claimed.Some? ==> r.claimed == Some(Cancelled))
    && (HasVerdict(r.stage) ==> r.claimed.Some?)
    && (CarriesResult(r.stage) ==> r.claimed == r.stage.result && r.stage.result != Some(Cancelled))
  }

  predicate StageOk(r: Request, p: Place) {
    && (p.act <==> InExecutor(r.stage))
    && (r.stage.Queued? <==> !p.popped)
    && (p.act ==> p.popped) && (p.out ==> p.popped)
    && !r.stage.Discarded?
  }

  predicate StrictOk(r: Request, p: Place) {
    && (p.popped && !p.passed ==> p.act || p.ord.Some?)
    && (p.ord.Some? ==> p.popped && !p.passed)
    && (p.passed ==> p.popped)
    && (p.ord.Some? && p.ord.value.Some? ==> r.claimed == p.ord.value && !CarriesResult(r.stage))
    && (p.ord.Some? && p.ord.value.None? ==> r.cancelFlag)
    && (CarriesResult(r.stage) && (p.ord.Some? || p.passed) ==> r.cancelFlag)
    && (p.act && Barren(r) ==> r.cancelFlag || p.ord.Some? || p.passed)
    && (p.passed ==> r.cancelFlag || p.out)
    && (p.out ==> p.passed && r.claimed.Some?)
  }

  predicate RelaxedOk(r: Request, p: Place) {
    && p.ord.None? && !p.passed
    && (p.out ==> r.claimed.Some? && !CarriesResult(r.stage))
    && (p.act && Barren(r) ==> r.cancelFlag || p.out)
    && (r.stage.Retired? ==> r.cancelFlag || p.out)
  }

  /** While the mailbox is open. */
  predicate OpenOk(strict: bool, r: Request, p: Place) {
    StageOk(r, p) && (if strict then StrictOk(r, p) else RelaxedOk(r, p))
  }

  /** At all times, also after the mailbox has been closed. */
  predicate AlwaysOk(strict: bool, r: Request, p: Place) {
    && OwnerOk(r)
    && (InExecutor(r.stage) ==> p.act) && (r.stage.Queued? ==> !p.act)
    && (p.out ==> r.claimed.Some?)
    && (!strict && p.out ==> !CarriesResult(r.stage))
    && (strict && p.passed ==> r.cancelFlag || p.out)
  }

  predicate RequestOk(strict: bool, closed: bool, r: Request, p: Place) {
    AlwaysOk(strict, r, p) && (!closed ==> OpenOk(strict, r, p))
  }

  function Tags(ds: seq<Delivery>): set<nat> {
    set d | d in ds :: d.q
  }

  ghost predicate Increasing(ds: seq<Delivery>) {
    forall i, j :: 0 <= i < j < |ds| ==> ds[i].q < ds[j].q
  }

  ghost predicate DistinctTags(ds: seq<Delivery>) {
    forall i, j :: 0 <= i < j < |ds| ==> ds[i].q != ds[j].q
  }

  /** Every result that ever entered an outgoing queue, in order. */
  function Outgoing(s: State): seq<Delivery> {
    s.delivered + s.relaxed
  }

  predicate Truthful(s: State, d: Delivery) {
    d.q < |s.requests| && s.requests[d.q].claimed == Some(d.outcome)
  }

  ghost predicate OutgoingOk(cfg: Config, s: State) {
    && s.emitted == Tags(Outgoing(s))
    && DistinctTags(Outgoing(s))
    && (forall i :: 0 <= i < |Outgoing(s)| ==> Truthful(s, Outgoing(s)[i]))
    && (cfg.strict ==> s.relaxed == [] && Increasing(s.delivered))
    && (cfg.strict ==> forall i :: 0 <= i < |s.delivered| ==> s.delivered[i].q < s.next)
    && |s.results| <= cfg.resultCapacity
  }

  /** The in-flight window of either ordering. */
  predicate Fits(cfg: Config, active: set<nat>, ordered: set<nat>, emitted: set<nat>, relaxed: nat) {
    && |active| <= cfg.maxInFlight
    && (cfg.strict ==> |active + ordered| <= cfg.maxInFlight)
    && (!cfg.strict ==> |active - emitted| + relaxed <= cfg.maxInFlight)
  }

  predicate WindowOk(cfg: Config, s: State) {
    Fits(cfg, s.active, s.ordered.Keys, s.emitted, |s.relaxed|)
  }

  predicate InputOk(s: State) {
    && s.popped <= |s.requests| && s.next <= s.popped
    && (!s.closed ==> |s.input| == |s.requests| - s.popped)
    && (!s.closed ==> forall i :: 0 <= i < |s.input| ==> s.input[i] == s.popped + i)
    && (s.pc.Sweeping? ==> s.pc.todo <= s.active)
    && (s.closed ==> MailboxFree(s) && s.input == [])
  }

  predicate InKind(r: Request, o: Outcome) {
    r.kindCounted && r.claimed == Some(o)
  }

  function Kind(requests: seq<Request>, outcome: Outcome): set<nat> {
    set q: nat | q < |requests| && InKind(requests[q], outcome)
  }

  function Totals(requests: seq<Request>): set<nat> {
    set q: nat | q < |requests| && requests[q].totalCounted
  }

  function CountOf(c: Counts, outcome: Outcome): nat {
    match outcome
    case Succeeded => c.succeeded
    case RetryExhausted => c.retryExhausted
    case Failed => c.failed
    case TimedOut => c.timedOut
    case Cancelled => c.cancelled
  }

  /** Admission slots and metrics are exact: one slot per lease, one count per claim. */
  ghost predicate AccountsOk(cfg: Config, s: State) {
    && s.inFlight == s.held + |Leases(s.requests)| <= cfg.slots
    && s.counts.completed == |Totals(s.requests)|
    && forall o :: CountOf(s.counts, o) == |Kind(s.requests, o)|
  }

  predicate RequestAt(cfg: Config, s: State, q: nat)
    requires q < |s.requests|
  {
    RequestOk(cfg.strict, s.closed, s.requests[q], PlaceOf(s, q))
  }

  ghost predicate RequestsOk(cfg: Config, s: State) {
    forall q: nat {:trigger RequestAt(cfg, s, q)} :: q < |s.requests| ==> RequestAt(cfg, s, q)
  }

  /** The executor only knows popped requests. */
  predicate KnownOk(s: State) {
    !s.closed ==> (forall q :: q in s.active ==> q < s.popped) && (forall q :: q in s.ordered ==> q < s.popped)
  }

  ghost predicate Inv(cfg: Config, s: State) {
    InputOk(s) && KnownOk(s) && OutgoingOk(cfg, s) && AccountsOk(cfg, s) && WindowOk(cfg, s) && RequestsOk(cfg, s)
  }

  /** Every cancellation in progress targets a request whose flag is set. */
  ghost predicate CancellersMarked(s: State) {
    forall q :: q in s.cancelling ==> 0 <= q < |s.requests| && s.requests[q].cancelFlag
  }

  // ---------------------------------------------------------------- counting

  /** Two sets that agree except possibly on `q`. */
  lemma SizeAfter(a: set<nat>, b: set<nat>, q: nat)
    requires a - {q} == b - {q}
    ensures |b| == |a| - (if q in a then 1 else 0) + (if q in b then 1 else 0)
  {
    var others := a - {q};
    assert a == if q in a then others + {q} else others;
    assert b == if q in b then others + {q} else others;
  }

  lemma LeasesAfter(requests: seq<Request>, q: nat, r: Request)
    requires q < |requests|
    ensures |Leases(requests[q := r])| ==
            |Leases(requests)| - (if requests[q].lease then 1 else 0) + (if r.lease then 1 else 0)
  {
    SizeAfter(Leases(requests), Leases(requests[q := r]), q);
  }

  lemma TotalsAfter(requests: seq<Request>, q: nat, r: Request)
    requires q < |requests|
    ensures |Totals(requests[q := r])| ==
            |Totals(requests)| - (if requests[q].totalCounted then 1 else 0) + (if r.totalCounted then 1 else 0)
  {
    SizeAfter(Totals(requests), Totals(requests[q := r]), q);
  }

  lemma KindAfter(requests: seq<Request>, q: nat, r: Request, o: Outcome)
    requires q < |requests|
    ensures |Kind(requests[q := r], o)| ==
            |Kind(requests, o)| - (if InKind(requests[q], o) then 1 else 0) + (if InKind(r, o) then 1 else 0)
  {
    var after := requests[q := r];
    forall k: nat | k != q ensures k in Kind(requests, o) <==> k in Kind(after, o) {
      assert k < |requests| ==> after[k] == requests[k];
    }
    SizeAfter(Kind(requests, o), Kind(after, o), q);
  }

  /** Changing a request without touching its lease or its counted claim. */
  lemma AccountsKept(cfg: Config, s: State, q: nat, r: Request, t: State)
    requires AccountsOk(cfg, s) && q < |s.requests| && t.requests == s.requests[q := r]
    requires t.inFlight == s.inFlight && t.held == s.held && t.counts == s.counts
    requires r.lease == s.requests[q].lease && r.totalCounted == s.requests[q].totalCounted
    requires r.kindCounted == s.requests[q].kindCounted
    requires r.kindCounted ==> r.claimed == s.requests[q].claimed
    ensures AccountsOk(cfg, t)
  {
    LeasesAfter(s.requests, q, r);
    TotalsAfter(s.requests, q, r);
    forall o ensures |Kind(t.requests, o)| == |Kind(s.requests, o)| { KindAfter(s.requests, q, r, o); }
  }

  lemma ClaimKeepsAccounts(cfg: Config, s: State, q: nat, outcome: Outcome, stage: Stage, t: State)
    requires AccountsOk(cfg, s) && q < |s.requests| && OwnerOk(s.requests[q]) && s.requests[q].claimed.None?
    requires t.requests == Claim(s, q, outcome, stage).requests
    requires t.inFlight == s.inFlight && t.held == s.held && t.counts == s.counts
    ensures AccountsOk(cfg, t)
  {
    AccountsKept(cfg, s, q, t.requests[q], t);
  }

  lemma ReleaseKeepsAccounts(cfg: Config, s: State, q: nat, t: State)
    requires AccountsOk(cfg, s) && ReleaseStep(s, q) == Some(t)
    ensures AccountsOk(cfg, t)
  {
    var r := t.requests[q];
    LeasesAfter(s.requests, q, r);
    TotalsAfter(s.requests, q, r);
    forall o ensures |Kind(t.requests, o)| == |Kind(s.requests, o)| { KindAfter(s.requests, q, r, o); }
  }

  // ---------------------------------------------------------------- claims stay, so deliveries stay truthful

  predicate ClaimsStay(s: State, t: State) {
    && |s.requests| <= |t.requests|
    && forall q :: 0 <= q < |s.requests| && s.requests[q].claimed.Some? ==>
         t.requests[q].claimed == s.requests[q].claimed
  }

  lemma OutgoingKept(cfg: Config, s: State, t: State)
    requires OutgoingOk(cfg, s) && ClaimsStay(s, t)
    requires t.delivered == s.delivered && t.relaxed == s.relaxed && t.emitted == s.emitted && t.next == s.next
    requires t.results == s.results || t.results == [] || (s.results != [] && t.results == s.results[1..])
    ensures OutgoingOk(cfg, t)
  {
    forall i | 0 <= i < |Outgoing(t)| ensures Truthful(t, Outgoing(t)[i]) {
      assert Truthful(s, Outgoing(s)[i]);
    }
  }

  lemma TagsAppend(ds: seq<Delivery>, d: Delivery)
    ensures Tags(ds + [d]) == Tags(ds) + {d.q}
  {
    assert forall x :: x in ds ==> x in ds + [d];
    assert d in ds + [d];
  }

  lemma TagsMember(ds: seq<Delivery>, i: nat)
    requires i < |ds|
    ensures ds[i].q in Tags(ds)
  {
    assert ds[i] in ds;
  }

  /** A request that has not been emitted may be appended to the outgoing results. */
  lemma OutgoingGrows(cfg: Config, s: State, t: State, d: Delivery)
    requires OutgoingOk(cfg, s) && ClaimsStay(s, t) && d.q !in s.emitted && Truthful(t, d)
    requires Outgoing(t) == Outgoing(s) + [d] && t.emitted == s.emitted + {d.q}
    ensures t.emitted == Tags(Outgoing(t)) && DistinctTags(Outgoing(t))
    ensures forall i :: 0 <= i < |Outgoing(t)| ==> Truthful(t, Outgoing(t)[i])
  {
    TagsAppend(Outgoing(s), d);
    forall i | 0 <= i < |Outgoing(s)| ensures Outgoing(s)[i].q != d.q && Truthful(t, Outgoing(t)[i]) {
      TagsMember(Outgoing(s), i);
      assert Truthful(s, Outgoing(s)[i]);
    }
  }
}
