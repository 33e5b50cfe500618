/** What holds on every run of the managed stream. */
module ManagedRuns {
  import opened Optional
  import opened FiniteSets
  import opened ManagedModel
  import opened ManagedInvariant
  import opened ManagedSteps
  import opened ManagedExecutor

  // ---------------------------------------------------------------- what never goes back

  /** A terminal flag is written once, a released lease stays released, a cancellation flag stays set. */
  predicate RequestAdvances(r: Request, u: Request) {
    && (r.claimed.Some? ==> u.claimed == r.claimed)
    && (!r.lease ==> !u.lease)
    && (r.cancelFlag ==> u.cancelFlag)
    && (r.totalCounted ==> u.totalCounted) && (r.kindCounted ==> u.kindCounted)
  }

  predicate AdvancesAt(before: seq<Request>, after: seq<Request>, q: nat) {
    q < |before| ==> q < |after| && RequestAdvances(before[q], after[q])
  }

  ghost predicate RequestsAdvance(before: seq<Request>, after: seq<Request>) {
    |before| <= |after| && forall q: nat {:trigger AdvancesAt(before, after, q)} :: AdvancesAt(before, after, q)
  }

  predicate HistoryGrows(s: State, t: State) {
    s.next <= t.next && s.popped <= t.popped && (s.closed ==> t.closed) && s.delivered <= t.delivered
  }

  ghost predicate Advances(s: State, t: State) {
    RequestsAdvance(s.requests, t.requests) && HistoryGrows(s, t)
  }

  lemma OneRequestAdvances(before: seq<Request>, after: seq<Request>, q: nat)
    requires q < |before| == |after| && after == before[q := after[q]] && RequestAdvances(before[q], after[q])
    ensures RequestsAdvance(before, after)
  {
  }

  lemma NoRequestChanges(requests: seq<Request>)
    ensures RequestsAdvance(requests, requests)
  {
  }

  lemma CallerAdvances(cfg: Config, s: State, a: Action, t: State)
    requires Step(cfg, s, a) == Some(t)
    requires a.MarkCancelled? || a.FinishCancel? || a.ReleaseLease? || a.CountKind? || a.CountTotal?
             || a.WorkerFinishes? || a.WorkerPushes? || a.Spawn?
    ensures Advances(s, t)
  {
    OneRequestAdvances(s.requests, t.requests, a.q);
  }

  lemma MailboxAdvances(cfg: Config, s: State, a: Action, t: State)
    requires Step(cfg, s, a) == Some(t)
    requires a.AcquireLease? || a.Submit? || a.TakeResult? || a.BeginStop? || a.CloseMailbox? || a.Drain?
          || a.NotifyCancel? || a.NotifyStop? || a.DeadlineElapses?
    ensures Advances(s, t)
  {
    assert forall q: nat :: AdvancesAt(s.requests, t.requests, q);
  }

  lemma ProcessAdvances(cfg: Config, s: State, q: nat, t: State)
    requires ProcessStep(cfg, s, q) == Some(t)
    ensures Advances(s, t)
  {
    OneRequestAdvances(s.requests, t.requests, q);
  }

  lemma SweepAdvances(cfg: Config, s: State, q: nat, due: bool, t: State)
    requires SweepStep(cfg, s, q, due) == Some(t)
    ensures Advances(s, t)
  {
    OneRequestAdvances(s.requests, t.requests, q);
  }

  lemma DeliveryAdvances(cfg: Config, s: State, t: State)
    requires ExecutorStep(cfg, s) == Some(t)
    ensures Advances(s, t)
  {
    DeliveryKeepsRequests(cfg, s, t);
    NoRequestChanges(s.requests);
    DeliveryGrows(cfg, s, t);
  }

  lemma DeliveryGrows(cfg: Config, s: State, t: State)
    requires ExecutorStep(cfg, s) == Some(t)
    ensures HistoryGrows(s, t)
  {
  }

  lemma AdmitAdvances(cfg: Config, s: State, due: bool, t: State)
    requires AdmitStep(cfg, s, due) == Some(t)
    ensures Advances(s, t)
  {
    if Admissible(cfg, s) {
      var q := s.input[0];
      var u := Popped(s);
      if s.requests[q].cancelFlag || (due && s.requests[q].claimed.Some?) { assert t == AdmitCancelled(cfg, u, q); }
      else if due { assert t == AdmitExpired(cfg, u, q); }
      else { assert t == AdmitLaunch(u, q); }
      OneRequestAdvances(s.requests, t.requests, q);
    } else {
      NoRequestChanges(s.requests);
    }
  }

  lemma StepAdvances(cfg: Config, s: State, a: Action, t: State)
    requires Step(cfg, s, a) == Some(t)
    ensures Advances(s, t)
  {
    match a
    case Admit(due) => AdmitAdvances(cfg, s, due, t);
    case Sweep(q, due) => SweepAdvances(cfg, s, q, due, t);
    case Executor => DeliveryAdvances(cfg, s, t);
    case Process(q) => ProcessAdvances(cfg, s, q, t);
    case AcquireLease => MailboxAdvances(cfg, s, a, t);
    case Submit(_) => MailboxAdvances(cfg, s, a, t);
    case TakeResult => MailboxAdvances(cfg, s, a, t);
    case BeginStop => MailboxAdvances(cfg, s, a, t);
    case NotifyCancel(_) => MailboxAdvances(cfg, s, a, t);
    case NotifyStop => MailboxAdvances(cfg, s, a, t);
    case DeadlineElapses => MailboxAdvances(cfg, s, a, t);
    case CloseMailbox => MailboxAdvances(cfg, s, a, t);
    case Drain => MailboxAdvances(cfg, s, a, t);
    case _ => CallerAdvances(cfg, s, a, t);
  }

  lemma FollowsAdvances(cfg: Config, s: State, t: State)
    requires Follows(cfg, s, t)
    ensures Advances(s, t)
  {
    var a :| Step(cfg, s, a) == Some(t);
    StepAdvances(cfg, s, a, t);
  }

  lemma AdvancesTransitive(s: State, t: State, u: State)
    requires Advances(s, t) && Advances(t, u)
    ensures Advances(s, u)
  {
    forall q: nat ensures AdvancesAt(s.requests, u.requests, q) {
      assert AdvancesAt(s.requests, t.requests, q) && AdvancesAt(t.requests, u.requests, q);
    }
  }

  /** On every run a request is claimed at most once and its lease is given back at most once. */
  lemma {:induction false} NothingGoesBack(cfg: Config, run: seq<State>, i: nat, j: nat)
    requires IsRun(cfg, run) && i <= j < |run|
    ensures Advances(run[i], run[j])
    decreases j - i
  {
    if i < j {
      NothingGoesBack(cfg, run, i, j - 1);
      assert Linked(cfg, run, j);
      FollowsAdvances(cfg, run[j - 1], run[j]);
      AdvancesTransitive(run[i], run[j - 1], run[j]);
    } else {
      NoRequestChanges(run[i].requests);
    }
  }

  // ---------------------------------------------------------------- the invariant on every run

  lemma AcquireKeeps(cfg: Config, s: State, t: State)
    requires Inv(cfg, s) && AcquireStep(cfg, s) == Some(t)
    ensures Inv(cfg, t)
  {
    OutgoingKept(cfg, s, t);
    SamePlaces(cfg, s, t);
  }

  lemma CallerKeeps(cfg: Config, s: State, a: Action, t: State)
    requires Inv(cfg, s) && CancellersMarked(s) && Step(cfg, s, a) == Some(t)
    requires a.AcquireLease? || a.Submit? || a.MarkCancelled? || a.FinishCancel? || a.CountKind? || a.CountTotal?
             || a.TakeResult?
    ensures Inv(cfg, t)
  {
    match a
    case AcquireLease => AcquireKeeps(cfg, s, t);
    case Submit(refused) => SubmitKeeps(cfg, s, refused, t);
    case MarkCancelled(q) => MarkKeeps(cfg, s, q);
    case FinishCancel(q) => assert q in s.cancelling; FinishCancelKeeps(cfg, s, q, t);
    case CountKind(q) => CountKindKeeps(cfg, s, q);
    case CountTotal(q) => CountTotalKeeps(cfg, s, q);
    case TakeResult => TakeKeeps(cfg, s, t);
  }

  lemma NotifierKeeps(cfg: Config, s: State, a: Action, t: State)
    requires Inv(cfg, s) && Step(cfg, s, a) == Some(t)
    requires a.NotifyCancel? || a.ReleaseLease? || a.BeginStop? || a.CloseMailbox? || a.NotifyStop?
             || a.DeadlineElapses?
    ensures Inv(cfg, t)
  {
    match a
    case NotifyCancel(q) => NotifyCancelKeeps(cfg, s, q, t);
    case ReleaseLease(q) => ReleaseKeeps(cfg, s, q, t);
    case BeginStop => BookkeepingKeeps(cfg, s, t);
    case CloseMailbox => CloseKeeps(cfg, s);
    case NotifyStop => NotifyStopKeeps(cfg, s, t);
    case DeadlineElapses => WakeKeeps(cfg, s);
  }

  lemma StepKeepsInv(cfg: Config, s: State, a: Action, t: State)
    requires Inv(cfg, s) && CancellersMarked(s) && Step(cfg, s, a) == Some(t)
    ensures Inv(cfg, t)
  {
    match a
    case WorkerFinishes(q, result) => WorkerKeeps(cfg, s, q, result);
    case WorkerPushes(q) => PushKeeps(cfg, s, q, t);
    case Drain => DrainKeeps(cfg, s);
    case Process(q) => ProcessKeeps(cfg, s, q, t);
    case Sweep(q, due) => SweepKeeps(cfg, s, q, due);
    case Executor => ExecutorKeeps(cfg, s);
    case Admit(due) => AdmitKeeps(cfg, s, due);
    case Spawn(q) => SpawnKeeps(cfg, s, q);
    case NotifyCancel(_) => NotifierKeeps(cfg, s, a, t);
    case ReleaseLease(_) => NotifierKeeps(cfg, s, a, t);
    case BeginStop => NotifierKeeps(cfg, s, a, t);
    case CloseMailbox => NotifierKeeps(cfg, s, a, t);
    case NotifyStop => NotifierKeeps(cfg, s, a, t);
    case DeadlineElapses => NotifierKeeps(cfg, s, a, t);
    case _ => CallerKeeps(cfg, s, a, t);
  }

  lemma ExecutorKeepsCancelling(cfg: Config, s: State, a: Action, t: State)
    requires Step(cfg, s, a) == Some(t) && (a.Process? || a.Sweep? || a.Executor?)
    ensures t.cancelling == s.cancelling
  {
  }

  lemma AdmitKeepsCancelling(cfg: Config, s: State, due: bool, t: State)
    requires AdmitStep(cfg, s, due) == Some(t)
    ensures t.cancelling == s.cancelling
  {
    if Admissible(cfg, s) {
      var k, u := s.input[0], Popped(s);
      assert u.cancelling == s.cancelling;
      if s.requests[k].cancelFlag || (due && s.requests[k].claimed.Some?) { assert t == AdmitCancelled(cfg, u, k); }
      else if due { assert t == AdmitExpired(cfg, u, k); }
      else { assert t == AdmitLaunch(u, k); }
    }
  }

  lemma OthersKeepCancelling(cfg: Config, s: State, a: Action, t: State)
    requires Step(cfg, s, a) == Some(t) && !a.MarkCancelled? && !a.FinishCancel?
    requires !a.Process? && !a.Sweep? && !a.Executor? && !a.Admit?
    ensures t.cancelling == s.cancelling
  {
  }

  lemma CancellingChanges(cfg: Config, s: State, a: Action, t: State)
    requires Step(cfg, s, a) == Some(t)
    ensures t.cancelling <= s.cancelling
         || (a.MarkCancelled? && a.q < |t.requests| && t.requests[a.q].cancelFlag
             && t.cancelling == s.cancelling + multiset{a.q})
  {
    match a
    case MarkCancelled(_) =>
    case FinishCancel(_) =>
    case Process(_) => ExecutorKeepsCancelling(cfg, s, a, t);
    case Sweep(_, _) => ExecutorKeepsCancelling(cfg, s, a, t);
    case Executor => ExecutorKeepsCancelling(cfg, s, a, t);
    case Admit(due) => AdmitKeepsCancelling(cfg, s, due, t);
    case _ => OthersKeepCancelling(cfg, s, a, t);
  }

  lemma StepKeepsMarked(cfg: Config, s: State, a: Action, t: State)
    requires CancellersMarked(s) && Step(cfg, s, a) == Some(t)
    ensures CancellersMarked(t)
  {
    StepAdvances(cfg, s, a, t);
    CancellingChanges(cfg, s, a, t);
    forall q | q in t.cancelling ensures 0 <= q < |t.requests| && t.requests[q].cancelFlag {
      if q in s.cancelling { assert AdvancesAt(s.requests, t.requests, q); }
    }
  }

  lemma FollowsKeepsInv(cfg: Config, s: State, t: State)
    requires Inv(cfg, s) && CancellersMarked(s) && Follows(cfg, s, t)
    ensures Inv(cfg, t) && CancellersMarked(t)
  {
    var a :| Step(cfg, s, a) == Some(t);
    StepKeepsInv(cfg, s, a, t);
    StepKeepsMarked(cfg, s, a, t);
  }

  lemma LinkedKeepsInv(cfg: Config, run: seq<State>, i: nat)
    requires IsRun(cfg, run) && 0 < i < |run| && Inv(cfg, run[i - 1]) && CancellersMarked(run[i - 1])
    ensures Inv(cfg, run[i]) && CancellersMarked(run[i])
  {
    assert Linked(cfg, run, i);
    FollowsKeepsInv(cfg, run[i - 1], run[i]);
  }

  lemma {:induction false} RunKeepsInv(cfg: Config, run: seq<State>, i: nat)
    requires IsRun(cfg, run) && i < |run|
    ensures Inv(cfg, run[i]) && CancellersMarked(run[i])
  {
    if i > 0 {
      RunKeepsInv(cfg, run, i - 1);
      LinkedKeepsInv(cfg, run, i);
    } else {
      InitialOk(cfg);
    }
  }

  lemma InitialOk(cfg: Config)
    ensures Inv(cfg, INITIAL) && CancellersMarked(INITIAL)
  {
    assert Outgoing(INITIAL) == [];
    assert Leases(INITIAL.requests) == {} && Totals(INITIAL.requests) == {};
    forall o ensures Kind(INITIAL.requests, o) == {} { }
    assert INITIAL.active - INITIAL.emitted == {} && INITIAL.active + INITIAL.ordered.Keys == {};
  }

  // ---------------------------------------------------------------- who was cancelled

  /** Some call of cancel, or the stop, has targeted request `q` by state `n` of the run. */
  ghost predicate Targeted(run: seq<State>, n: nat, q: nat) {
    exists i :: 0 < i <= n && i < |run| && run[i].cancelling[q] > run[i - 1].cancelling[q]
  }

  predicate FlaggedIn(requests: seq<Request>, q: nat) {
    q < |requests| && requests[q].cancelFlag
  }

  ghost predicate FlagsKept(before: seq<Request>, after: seq<Request>) {
    forall q: nat {:trigger FlaggedIn(after, q)} :: FlaggedIn(after, q) ==> FlaggedIn(before, q)
  }

  lemma OneKeepsFlags(before: seq<Request>, after: seq<Request>, k: nat)
    requires k < |before| == |after| && after == before[k := after[k]] && after[k].cancelFlag == before[k].cancelFlag
    ensures FlagsKept(before, after)
  {
  }

  lemma CallerKeepsFlags(cfg: Config, s: State, a: Action, t: State)
    requires Step(cfg, s, a) == Some(t) && (a.FinishCancel? || a.ReleaseLease? || a.CountKind? || a.CountTotal?)
    ensures FlagsKept(s.requests, t.requests)
  {
    OneKeepsFlags(s.requests, t.requests, a.q);
  }

  lemma WorkerKeepsFlags(cfg: Config, s: State, a: Action, t: State)
    requires Step(cfg, s, a) == Some(t) && (a.WorkerFinishes? || a.WorkerPushes? || a.Spawn?)
    ensures FlagsKept(s.requests, t.requests)
  {
    OneKeepsFlags(s.requests, t.requests, a.q);
  }

  lemma MailboxKeepsFlags(cfg: Config, s: State, a: Action, t: State)
    requires Step(cfg, s, a) == Some(t)
    requires a.AcquireLease? || a.Submit? || a.TakeResult? || a.BeginStop? || a.CloseMailbox? || a.Drain?
          || a.NotifyCancel? || a.NotifyStop? || a.DeadlineElapses?
    ensures FlagsKept(s.requests, t.requests)
  {
  }

  lemma ProcessKeepsFlags(cfg: Config, s: State, q: nat, t: State)
    requires ProcessStep(cfg, s, q) == Some(t)
    ensures FlagsKept(s.requests, t.requests)
  {
    OneKeepsFlags(s.requests, t.requests, q);
  }

  lemma SweepKeepsFlags(cfg: Config, s: State, q: nat, due: bool, t: State)
    requires SweepStep(cfg, s, q, due) == Some(t)
    ensures FlagsKept(s.requests, t.requests)
  {
    OneKeepsFlags(s.requests, t.requests, q);
  }

  lemma DeliveryKeepsRequests(cfg: Config, s: State, t: State)
    requires ExecutorStep(cfg, s) == Some(t)
    ensures t.requests == s.requests
  {
  }

  lemma AdmitKeepsFlags(cfg: Config, s: State, due: bool, t: State)
    requires AdmitStep(cfg, s, due) == Some(t)
    ensures FlagsKept(s.requests, t.requests)
  {
    if Admissible(cfg, s) {
      var k := s.input[0];
      var u := Popped(s);
      if s.requests[k].cancelFlag || (due && s.requests[k].claimed.Some?) { assert t == AdmitCancelled(cfg, u, k); }
      else if due { assert t == AdmitExpired(cfg, u, k); }
      else { assert t == AdmitLaunch(u, k); }
      OneKeepsFlags(s.requests, t.requests, k);
    }
  }

  lemma FlagNeedsMark(cfg: Config, s: State, a: Action, t: State, q: nat)
    requires Step(cfg, s, a) == Some(t) && FlaggedIn(t.requests, q)
    ensures FlaggedIn(s.requests, q) || t.cancelling[q] > s.cancelling[q]
  {
    match a
    case MarkCancelled(_) =>
    case Admit(due) => AdmitKeepsFlags(cfg, s, due, t);
    case Process(k) => ProcessKeepsFlags(cfg, s, k, t);
    case Sweep(k, due) => SweepKeepsFlags(cfg, s, k, due, t);
    case Executor => DeliveryKeepsRequests(cfg, s, t);
    case AcquireLease => MailboxKeepsFlags(cfg, s, a, t);
    case Submit(_) => MailboxKeepsFlags(cfg, s, a, t);
    case TakeResult => MailboxKeepsFlags(cfg, s, a, t);
    case BeginStop => MailboxKeepsFlags(cfg, s, a, t);
    case NotifyCancel(_) => MailboxKeepsFlags(cfg, s, a, t);
    case NotifyStop => MailboxKeepsFlags(cfg, s, a, t);
    case DeadlineElapses => MailboxKeepsFlags(cfg, s, a, t);
    case CloseMailbox => MailboxKeepsFlags(cfg, s, a, t);
    case Drain => MailboxKeepsFlags(cfg, s, a, t);
    case WorkerFinishes(_, _) => WorkerKeepsFlags(cfg, s, a, t);
    case WorkerPushes(_) => WorkerKeepsFlags(cfg, s, a, t);
    case Spawn(_) => WorkerKeepsFlags(cfg, s, a, t);
    case _ => CallerKeepsFlags(cfg, s, a, t);
  }

  lemma FlagNeedsMarkStep(cfg: Config, s: State, t: State, q: nat)
    requires Follows(cfg, s, t) && FlaggedIn(t.requests, q)
    ensures FlaggedIn(s.requests, q) || t.cancelling[q] > s.cancelling[q]
  {
    var a :| Step(cfg, s, a) == Some(t);
    FlagNeedsMark(cfg, s, a, t, q);
  }

  lemma FlagNeedsMarkAt(cfg: Config, run: seq<State>, n: nat, q: nat)
    requires IsRun(cfg, run) && n < |run| && FlaggedIn(run[n].requests, q)
    ensures n > 0 && (FlaggedIn(run[n - 1].requests, q) || run[n].cancelling[q] > run[n - 1].cancelling[q])
  {
    assert n > 0;
    assert Linked(cfg, run, n);
    FlagNeedsMarkStep(cfg, run[n - 1], run[n], q);
  }

  /** A request carries the cancellation flag only if it was targeted. */
  lemma {:induction false} FlagMeansTargeted(cfg: Config, run: seq<State>, n: nat, q: nat)
    requires IsRun(cfg, run) && n < |run| && FlaggedIn(run[n].requests, q)
    ensures Targeted(run, n, q)
  {
    FlagNeedsMarkAt(cfg, run, n, q);
    if FlaggedIn(run[n - 1].requests, q) { FlagMeansTargeted(cfg, run, n - 1, q); }
  }

  // ---------------------------------------------------------------- ordered delivery

  ghost predicate DeliveredOnce(ds: seq<Delivery>, q: nat, outcome: Outcome) {
    exists i :: 0 <= i < |ds| && ds[i] == Delivery(q, outcome) && OnlyAt(ds, q, i)
  }

  predicate OnlyAt(ds: seq<Delivery>, q: nat, i: nat) {
    forall j :: 0 <= j < |ds| && ds[j].q == q ==> j == i
  }

  lemma EmittedIsDeliveredOnce(cfg: Config, s: State, q: nat)
    requires OutgoingOk(cfg, s) && q in s.emitted
    ensures q < |s.requests| && s.requests[q].claimed.Some?
    ensures DeliveredOnce(Outgoing(s), q, s.requests[q].claimed.value)
  {
    var ds := Outgoing(s);
    var d :| d in ds && d.q == q;
    var i :| 0 <= i < |ds| && ds[i] == d;
    assert Truthful(s, ds[i]);
    assert OnlyAt(ds, q, i);
  }

  /**
   Strict ordering, on every run: results enter the mailbox in strictly increasing submission
   order, each telling the outcome that won its request's terminal flag.
   */
  lemma StrictOrderIsSubmissionOrder(cfg: Config, run: seq<State>, n: nat)
    requires IsRun(cfg, run) && n < |run| && cfg.strict
    ensures Increasing(run[n].delivered)
    ensures forall i :: 0 <= i < |run[n].delivered| ==> Truthful(run[n], run[n].delivered[i])
  {
    RunKeepsInv(cfg, run, n);
    var s := run[n];
    forall i | 0 <= i < |s.delivered| ensures Truthful(s, s.delivered[i]) {
      assert Outgoing(s)[i] == s.delivered[i];
    }
  }

  /** Strict ordering: a request the head has passed and nobody cancelled was delivered exactly once. */
  lemma PassedMeansDelivered(cfg: Config, run: seq<State>, n: nat, q: nat)
    requires IsRun(cfg, run) && n < |run| && cfg.strict && q < run[n].next
    ensures q < |run[n].requests|
    ensures !Targeted(run, n, q) ==>
              run[n].requests[q].claimed.Some? && DeliveredOnce(run[n].delivered, q, run[n].requests[q].claimed.value)
  {
    RunKeepsInv(cfg, run, n);
    if FlaggedIn(run[n].requests, q) { FlagMeansTargeted(cfg, run, n, q); }
    var s := run[n];
    assert RequestAt(cfg, s, q);
    if !s.requests[q].cancelFlag {
      EmittedIsDeliveredOnce(cfg, s, q);
      assert Outgoing(s) == s.delivered;
    }
  }

  /** Strict ordering: no gap can stall the head, and the head is at most one window behind. */
  lemma NoGapBeforeTheHead(cfg: Config, run: seq<State>, n: nat)
    requires IsRun(cfg, run) && n < |run| && cfg.strict && !run[n].closed
    ensures forall q :: run[n].next <= q < run[n].popped ==> q in run[n].active || q in run[n].ordered
    ensures run[n].popped - run[n].next <= cfg.maxInFlight
  {
    RunKeepsInv(cfg, run, n);
    var s := run[n];
    forall q: nat | s.next <= q < s.popped ensures q in s.active || q in s.ordered {
      assert RequestAt(cfg, s, q);
    }
    SubsetSize(Range(s.next, s.popped), s.active + s.ordered.Keys);
  }

  ghost function Range(lo: nat, hi: nat): (r: set<nat>)
    requires lo <= hi
    ensures |r| == hi - lo && forall q: nat :: q in r <==> lo <= q < hi
    decreases hi
  {
    if lo == hi then {} else Range(lo, hi - 1) + {hi - 1}
  }

  /** Relaxed ordering: a retired request nobody cancelled was emitted exactly once, with its outcome. */
  lemma RetiredMeansEmitted(cfg: Config, run: seq<State>, n: nat, q: nat)
    requires IsRun(cfg, run) && n < |run| && !cfg.strict && !run[n].closed && q < |run[n].requests|
    requires run[n].requests[q].stage.Retired? && !Targeted(run, n, q)
    ensures run[n].requests[q].claimed.Some? && DeliveredOnce(Outgoing(run[n]), q, run[n].requests[q].claimed.value)
  {
    RunKeepsInv(cfg, run, n);
    if FlaggedIn(run[n].requests, q) { FlagMeansTargeted(cfg, run, n, q); }
    assert RequestAt(cfg, run[n], q);
    EmittedIsDeliveredOnce(cfg, run[n], q);
  }

  /** Either ordering: no request is ever emitted twice, and what is emitted is what won. */
  lemma EmittedAtMostOnce(cfg: Config, run: seq<State>, n: nat)
    requires IsRun(cfg, run) && n < |run|
    ensures DistinctTags(Outgoing(run[n]))
    ensures forall i :: 0 <= i < |Outgoing(run[n])| ==> Truthful(run[n], Outgoing(run[n])[i])
  {
    RunKeepsInv(cfg, run, n);
  }

  /** The in-flight window holds in both orderings, timed-out workers that still run included. */
  lemma WindowHolds(cfg: Config, run: seq<State>, n: nat)
    requires IsRun(cfg, run) && n < |run|
    ensures |run[n].active| <= cfg.maxInFlight
    ensures cfg.strict ==> |run[n].active + run[n].ordered.Keys| <= cfg.maxInFlight
    ensures !cfg.strict ==> |run[n].active - run[n].emitted| + |run[n].relaxed| <= cfg.maxInFlight
    ensures forall q: nat :: q < |run[n].requests| && InExecutor(run[n].requests[q].stage) ==> q in run[n].active
  {
    RunKeepsInv(cfg, run, n);
    forall q: nat | q < |run[n].requests| && InExecutor(run[n].requests[q].stage) ensures q in run[n].active {
      assert RequestAt(cfg, run[n], q);
    }
  }

  // ---------------------------------------------------------------- one terminal per request

  /**
   A slot is occupied exactly by the leases not yet given back, and there are never too many:
   those of callers, of every request nobody has claimed, and of winners that have won their
   request and are about to give its lease back, as they can at once.
   */
  lemma SlotsAreLiveLeases(cfg: Config, run: seq<State>, n: nat)
    requires IsRun(cfg, run) && n < |run|
    ensures run[n].inFlight == run[n].held + |Leases(run[n].requests)| <= cfg.slots
    ensures forall q: nat ::
              q < |run[n].requests| && run[n].requests[q].claimed.None? && !run[n].requests[q].stage.Discarded?
              ==> q in Leases(run[n].requests)
    ensures forall q: nat :: q in Leases(run[n].requests) && run[n].requests[q].claimed.Some? ==>
              ReleaseStep(run[n], q).Some? && !run[n].requests[q].kindCounted && !run[n].requests[q].totalCounted
  {
    RunKeepsInv(cfg, run, n);
    forall q: nat | q < |run[n].requests| ensures OwnerOk(run[n].requests[q]) {
      assert RequestAt(cfg, run[n], q);
    }
  }

  predicate BooksClosed(requests: seq<Request>) {
    forall q :: 0 <= q < |requests| ==> requests[q].kindCounted == requests[q].totalCounted
  }

  function Sum(c: Counts): nat {
    c.succeeded + c.retryExhausted + c.failed + c.timedOut + c.cancelled
  }

  /** Five disjoint parts. */
  lemma PartsAddUp(a: set<nat>, b: set<nat>, c: set<nat>, d: set<nat>, e: set<nat>)
    requires a !! b && (a + b) !! c && (a + b + c) !! d && (a + b + c + d) !! e
    ensures |a + b + c + d + e| == |a| + |b| + |c| + |d| + |e|
  {
  }

  lemma KindsDisjoint(requests: seq<Request>, o: Outcome, p: Outcome)
    requires o != p
    ensures Kind(requests, o) !! Kind(requests, p)
  {
  }

  lemma KindsCover(requests: seq<Request>)
    requires BooksClosed(requests) && forall q :: 0 <= q < |requests| && requests[q].kindCounted ==>
               requests[q].claimed.Some?
    ensures Totals(requests) == Kind(requests, Succeeded) + Kind(requests, RetryExhausted) + Kind(requests, Failed)
                                + Kind(requests, TimedOut) + Kind(requests, Cancelled)
  {
    var all := Kind(requests, Succeeded) + Kind(requests, RetryExhausted) + Kind(requests, Failed)
      + Kind(requests, TimedOut) + Kind(requests, Cancelled);
    forall q: nat | q in Totals(requests) ensures q in all {
      assert requests[q].kindCounted;
      match requests[q].claimed.value
      case Succeeded => assert q in Kind(requests, Succeeded);
      case RetryExhausted => assert q in Kind(requests, RetryExhausted);
      case Failed => assert q in Kind(requests, Failed);
      case TimedOut => assert q in Kind(requests, TimedOut);
      case Cancelled => assert q in Kind(requests, Cancelled);
    }
  }

  lemma KindsAddUp(requests: seq<Request>)
    requires BooksClosed(requests) && forall q :: 0 <= q < |requests| && requests[q].kindCounted ==>
               requests[q].claimed.Some?
    ensures |Totals(requests)| ==
            |Kind(requests, Succeeded)| + |Kind(requests, RetryExhausted)| + |Kind(requests, Failed)|
                                  + |Kind(requests, TimedOut)| + |Kind(requests, Cancelled)|
  {
    KindsCover(requests);
    forall o, p | o != p ensures Kind(requests, o) !! Kind(requests, p) { KindsDisjoint(requests, o, p); }
    PartsAddUp(Kind(requests, Succeeded), Kind(requests, RetryExhausted), Kind(requests, Failed),
               Kind(requests, TimedOut), Kind(requests, Cancelled));
  }

  /**
   Whenever no winner is between its two metric updates, the completion count is the sum of
   the five outcome counts: every terminal request was counted once, under one outcome.
   */
  lemma CompletedIsTheSum(cfg: Config, run: seq<State>, n: nat)
    requires IsRun(cfg, run) && n < |run| && BooksClosed(run[n].requests)
    ensures run[n].counts.completed == Sum(run[n].counts)
  {
    RunKeepsInv(cfg, run, n);
    var s := run[n];
    forall q: nat | q < |s.requests| && s.requests[q].kindCounted ensures s.requests[q].claimed.Some? {
      assert RequestAt(cfg, s, q);
    }
    KindsAddUp(s.requests);
    SumOfKinds(cfg, s);
  }

  lemma SumOfKinds(cfg: Config, s: State)
    requires AccountsOk(cfg, s)
    ensures Sum(s.counts) == |Kind(s.requests, Succeeded)| + |Kind(s.requests, RetryExhausted)|
            + |Kind(s.requests, Failed)|
                             + |Kind(s.requests, TimedOut)| + |Kind(s.requests, Cancelled)|
  {
    assert forall o :: CountOf(s.counts, o) == |Kind(s.requests, o)|;
    assert CountOf(s.counts, Succeeded) == s.counts.succeeded
      && CountOf(s.counts, RetryExhausted) == s.counts.retryExhausted;
    assert CountOf(s.counts, Failed) == s.counts.failed && CountOf(s.counts, TimedOut) == s.counts.timedOut;
    assert CountOf(s.counts, Cancelled) == s.counts.cancelled;
  }

  /** The count of completions is exactly the number of requests whose winner has counted itself. */
  lemma CompletedCountsWinners(cfg: Config, run: seq<State>, n: nat)
    requires IsRun(cfg, run) && n < |run|
    ensures run[n].counts.completed == |Totals(run[n].requests)|
    ensures forall q: nat :: q in Totals(run[n].requests) ==>
              run[n].requests[q].claimed.Some? && !run[n].requests[q].lease
  {
    RunKeepsInv(cfg, run, n);
    forall q: nat | q in Totals(run[n].requests) ensures run[n].requests[q].claimed.Some? && !run[n].requests[q].lease {
      assert RequestAt(cfg, run[n], q);
    }
  }
}
