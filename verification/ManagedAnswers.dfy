/**
 Which action decides a request of the managed stream, and what a caller is told: the answer
 of the request's own worker, a cancellation, or a deadline that has passed.
 */
module ManagedAnswers {
  import opened Optional
  import opened ManagedModel
  import opened ManagedInvariant
  import opened ManagedExecutor
  import opened ManagedRuns

  // ---------------------------------------------------------------- runs with their actions

  ghost predicate Acted(cfg: Config, run: seq<State>, acts: seq<Action>, i: nat)
    requires i < |acts| && |run| == |acts| + 1
  {
    Step(cfg, run[i], acts[i]) == Some(run[i + 1])
  }

  /** A run together with the action that was taken in each of its states. */
  ghost predicate IsTrace(cfg: Config, run: seq<State>, acts: seq<Action>) {
    && |run| == |acts| + 1 && run[0] == INITIAL
    && forall i: nat {:trigger Acted(cfg, run, acts, i)} :: i < |acts| ==> Acted(cfg, run, acts, i)
  }

  lemma TraceIsRun(cfg: Config, run: seq<State>, acts: seq<Action>)
    requires IsTrace(cfg, run, acts)
    ensures IsRun(cfg, run)
  {
    forall i: nat | 0 < i < |run| ensures Linked(cfg, run, i) { assert Acted(cfg, run, acts, i - 1); }
  }

  // ---------------------------------------------------------------- who decides

  /** What a worker's result is worth to the terminal flag: no result counts as a failure. */
  function OutcomeOf(result: Option<Outcome>): Outcome {
    if result.Some? then result.value else Failed
  }

  predicate HeadIs(s: State, q: nat) {
    s.input != [] && s.input[0] == q
  }

  /** The outcome an action decides an undecided request on, if any. */
  function Verdict(cfg: Config, s: State, a: Action, q: nat): Option<Outcome> {
    match a
    case WorkerFinishes(k, result) => if k == q then Some(OutcomeOf(result)) else None
    case FinishCancel(k) => if k == q then Some(Cancelled) else None
    case Sweep(k, due) => if k == q && due && !FlaggedIn(s.requests, q) then Some(TimedOut) else None
    case Admit(due) =>
      if Admissible(cfg, s) && HeadIs(s, q) && due && !FlaggedIn(s.requests, q) then Some(TimedOut) else None
    case _ => None
  }

  function ClaimOf(requests: seq<Request>, q: nat): Option<Outcome> {
    if q < |requests| then requests[q].claimed else None
  }

  lemma CallerDecides(cfg: Config, s: State, a: Action, t: State, q: nat)
    requires Step(cfg, s, a) == Some(t) && ClaimOf(s.requests, q).None?
    requires a.FinishCancel? || a.MarkCancelled?
    ensures ClaimOf(t.requests, q) == Verdict(cfg, s, a, q)
  {
  }

  lemma WinnerDecides(cfg: Config, s: State, a: Action, t: State, q: nat)
    requires Step(cfg, s, a) == Some(t) && ClaimOf(s.requests, q).None?
    requires a.ReleaseLease? || a.CountKind? || a.CountTotal?
    ensures ClaimOf(t.requests, q) == Verdict(cfg, s, a, q)
  {
  }

  lemma WorkerDecides(cfg: Config, s: State, a: Action, t: State, q: nat)
    requires Step(cfg, s, a) == Some(t) && ClaimOf(s.requests, q).None?
    requires a.WorkerFinishes? || a.WorkerPushes? || a.Spawn?
    ensures ClaimOf(t.requests, q) == Verdict(cfg, s, a, q)
  {
  }

  lemma MailboxDecides(cfg: Config, s: State, a: Action, t: State, q: nat)
    requires Step(cfg, s, a) == Some(t) && ClaimOf(s.requests, q).None?
    requires a.AcquireLease? || a.Submit? || a.TakeResult? || a.BeginStop? || a.CloseMailbox? || a.Drain?
          || a.NotifyCancel? || a.NotifyStop? || a.DeadlineElapses?
    ensures ClaimOf(t.requests, q) == Verdict(cfg, s, a, q)
  {
  }

  lemma ProcessDecides(cfg: Config, s: State, k: nat, t: State, q: nat)
    requires ProcessStep(cfg, s, k) == Some(t) && ClaimOf(s.requests, q).None?
    ensures ClaimOf(t.requests, q).None?
  {
  }

  lemma SweepDecides(cfg: Config, s: State, k: nat, due: bool, t: State, q: nat)
    requires SweepStep(cfg, s, k, due) == Some(t) && ClaimOf(s.requests, q).None?
    ensures ClaimOf(t.requests, q) == Verdict(cfg, s, Sweep(k, due), q)
  {
  }

  /** What admission makes of the request at the front. */
  function Admitted(r: Request, due: bool): Request {
    if r.cancelFlag || (due && r.claimed.Some?) then r.(stage := Retired)
    else if due then r.(stage := Retired, claimed := Some(TimedOut))
    else r.(stage := Launching)
  }

  lemma AdmitTouches(cfg: Config, s: State, due: bool, t: State, k: nat)
    requires AdmitStep(cfg, s, due) == Some(t) && Admissible(cfg, s) && k == s.input[0]
    ensures k < |s.requests| && t.requests == s.requests[k := Admitted(s.requests[k], due)]
  {
    var u := Popped(s);
    if s.requests[k].cancelFlag || (due && s.requests[k].claimed.Some?) { assert t == AdmitCancelled(cfg, u, k); }
    else if due { assert t == AdmitExpired(cfg, u, k); }
    else { assert t == AdmitLaunch(u, k); }
  }

  lemma ClaimAfter(requests: seq<Request>, k: nat, r: Request, q: nat)
    requires k < |requests|
    ensures ClaimOf(requests[k := r], q) == if q == k then r.claimed else ClaimOf(requests, q)
  {
  }

  lemma AdmitLeaves(cfg: Config, s: State, due: bool, t: State)
    requires AdmitStep(cfg, s, due) == Some(t) && !Admissible(cfg, s)
    ensures t.requests == s.requests
  {
  }

  lemma AdmitDecides(cfg: Config, s: State, due: bool, t: State, q: nat)
    requires AdmitStep(cfg, s, due) == Some(t) && ClaimOf(s.requests, q).None?
    ensures ClaimOf(t.requests, q) == Verdict(cfg, s, Admit(due), q)
  {
    if Admissible(cfg, s) {
      var k := s.input[0];
      AdmitTouches(cfg, s, due, t, k);
      ClaimAfter(s.requests, k, Admitted(s.requests[k], due), q);
    } else {
      AdmitLeaves(cfg, s, due, t);
    }
  }

  /** An undecided request is decided by exactly the actions that have a verdict, and on that verdict. */
  lemma StepDecides(cfg: Config, s: State, a: Action, t: State, q: nat)
    requires Step(cfg, s, a) == Some(t) && ClaimOf(s.requests, q).None?
    ensures ClaimOf(t.requests, q) == Verdict(cfg, s, a, q)
  {
    match a
    case Admit(due) => AdmitDecides(cfg, s, due, t, q);
    case Process(k) => ProcessDecides(cfg, s, k, t, q);
    case Sweep(k, due) => SweepDecides(cfg, s, k, due, t, q);
    case Executor => DeliveryKeepsRequests(cfg, s, t);
    case FinishCancel(_) => CallerDecides(cfg, s, a, t, q);
    case ReleaseLease(_) => WinnerDecides(cfg, s, a, t, q);
    case CountKind(_) => WinnerDecides(cfg, s, a, t, q);
    case CountTotal(_) => WinnerDecides(cfg, s, a, t, q);
    case MarkCancelled(_) => CallerDecides(cfg, s, a, t, q);
    case WorkerFinishes(_, _) => WorkerDecides(cfg, s, a, t, q);
    case WorkerPushes(_) => WorkerDecides(cfg, s, a, t, q);
    case Spawn(_) => WorkerDecides(cfg, s, a, t, q);
    case _ => MailboxDecides(cfg, s, a, t, q);
  }

  /** The decision stands: on every run a request's outcome is the first verdict an action gave on it. */
  lemma DecidedByVerdict(cfg: Config, run: seq<State>, acts: seq<Action>, j: nat, n: nat, q: nat)
    requires IsTrace(cfg, run, acts) && j < n < |run| && ClaimOf(run[j].requests, q).None?
    requires Verdict(cfg, run[j], acts[j], q).Some?
    ensures ClaimOf(run[n].requests, q) == Verdict(cfg, run[j], acts[j], q)
  {
    assert Acted(cfg, run, acts, j);
    StepDecides(cfg, run[j], acts[j], run[j + 1], q);
    TraceIsRun(cfg, run, acts);
    NothingGoesBack(cfg, run, j + 1, n);
    assert AdvancesAt(run[j + 1].requests, run[n].requests, q);
  }

  /** The step at which an action with a verdict found the request undecided. */
  predicate DecidedAt(cfg: Config, run: seq<State>, acts: seq<Action>, j: nat, q: nat, outcome: Outcome)
    requires |run| == |acts| + 1
  {
    j < |acts| && ClaimOf(run[j].requests, q).None? && Verdict(cfg, run[j], acts[j], q) == Some(outcome)
  }

  lemma DecisionAt(cfg: Config, run: seq<State>, acts: seq<Action>, i: nat, q: nat)
    requires IsTrace(cfg, run, acts) && i < |acts| && ClaimOf(run[i + 1].requests, q).Some?
    ensures if ClaimOf(run[i].requests, q).None?
            then DecidedAt(cfg, run, acts, i, q, ClaimOf(run[i + 1].requests, q).value)
            else ClaimOf(run[i].requests, q) == ClaimOf(run[i + 1].requests, q)
  {
    assert Acted(cfg, run, acts, i);
    if ClaimOf(run[i].requests, q).None? {
      StepDecides(cfg, run[i], acts[i], run[i + 1], q);
    } else {
      StepAdvances(cfg, run[i], acts[i], run[i + 1]);
      assert AdvancesAt(run[i].requests, run[i + 1].requests, q);
    }
  }

  lemma {:induction false} DecisionHasCause(cfg: Config, run: seq<State>, acts: seq<Action>, n: nat, q: nat)
    returns (j: nat)
    requires IsTrace(cfg, run, acts) && n < |run| && ClaimOf(run[n].requests, q).Some?
    ensures j < n && DecidedAt(cfg, run, acts, j, q, ClaimOf(run[n].requests, q).value)
  {
    DecisionAt(cfg, run, acts, n - 1, q);
    if ClaimOf(run[n - 1].requests, q).None? {
      j := n - 1;
    } else {
      j := DecisionHasCause(cfg, run, acts, n - 1, q);
    }
  }

  // ---------------------------------------------------------------- a worker answers once

  function Rank(stage: Stage): nat {
    match stage
    case Queued => 0
    case Launching => 1
    case Running => 2
    case Finished(_) => 3
    case Posted(_) => 4
    case Drained(_) => 5
    case Retired => 6
    case Discarded => 6
  }

  function RankIn(requests: seq<Request>, q: nat): nat {
    if q < |requests| then Rank(requests[q].stage) else 0
  }

  lemma CallerRaises(cfg: Config, s: State, a: Action, t: State, q: nat)
    requires Step(cfg, s, a) == Some(t)
    requires a.FinishCancel? || a.ReleaseLease? || a.CountKind? || a.CountTotal? || a.MarkCancelled?
    ensures RankIn(s.requests, q) <= RankIn(t.requests, q)
  {
  }

  lemma WorkerRaises(cfg: Config, s: State, a: Action, t: State, q: nat)
    requires Step(cfg, s, a) == Some(t) && (a.WorkerFinishes? || a.WorkerPushes? || a.Spawn?)
    ensures RankIn(s.requests, q) <= RankIn(t.requests, q)
  {
  }

  lemma ProcessRaises(cfg: Config, s: State, k: nat, t: State, q: nat)
    requires ProcessStep(cfg, s, k) == Some(t)
    ensures RankIn(s.requests, q) <= RankIn(t.requests, q)
  {
  }

  lemma MailboxRaises(cfg: Config, s: State, a: Action, t: State, q: nat)
    requires Step(cfg, s, a) == Some(t)
    requires a.AcquireLease? || a.Submit? || a.TakeResult? || a.BeginStop? || a.CloseMailbox? || a.Drain?
          || a.NotifyCancel? || a.NotifyStop? || a.DeadlineElapses?
    ensures RankIn(s.requests, q) <= RankIn(t.requests, q)
  {
  }

  lemma SweepRaises(cfg: Config, s: State, k: nat, due: bool, t: State, q: nat)
    requires SweepStep(cfg, s, k, due) == Some(t)
    ensures RankIn(s.requests, q) <= RankIn(t.requests, q)
  {
  }

  lemma AdmitRaises(cfg: Config, s: State, due: bool, t: State, q: nat)
    requires Inv(cfg, s) && AdmitStep(cfg, s, due) == Some(t)
    ensures RankIn(s.requests, q) <= RankIn(t.requests, q)
  {
    if Admissible(cfg, s) {
      FrontIsNext(cfg, s);
      AdmitTouches(cfg, s, due, t, s.input[0]);
    }
  }

  lemma StepRaises(cfg: Config, s: State, a: Action, t: State, q: nat)
    requires Inv(cfg, s) && Step(cfg, s, a) == Some(t)
    ensures RankIn(s.requests, q) <= RankIn(t.requests, q)
  {
    match a
    case Admit(due) => AdmitRaises(cfg, s, due, t, q);
    case Sweep(k, due) => SweepRaises(cfg, s, k, due, t, q);
    case Executor => DeliveryKeepsRequests(cfg, s, t);
    case FinishCancel(_) => CallerRaises(cfg, s, a, t, q);
    case ReleaseLease(_) => CallerRaises(cfg, s, a, t, q);
    case CountKind(_) => CallerRaises(cfg, s, a, t, q);
    case CountTotal(_) => CallerRaises(cfg, s, a, t, q);
    case MarkCancelled(_) => CallerRaises(cfg, s, a, t, q);
    case WorkerFinishes(_, _) => WorkerRaises(cfg, s, a, t, q);
    case WorkerPushes(_) => WorkerRaises(cfg, s, a, t, q);
    case Spawn(_) => WorkerRaises(cfg, s, a, t, q);
    case Process(k) => ProcessRaises(cfg, s, k, t, q);
    case _ => MailboxRaises(cfg, s, a, t, q);
  }

  lemma RankNext(cfg: Config, run: seq<State>, acts: seq<Action>, i: nat, q: nat)
    requires IsTrace(cfg, run, acts) && i < |acts|
    ensures RankIn(run[i].requests, q) <= RankIn(run[i + 1].requests, q)
  {
    TraceIsRun(cfg, run, acts);
    RunKeepsInv(cfg, run, i);
    assert Acted(cfg, run, acts, i);
    StepRaises(cfg, run[i], acts[i], run[i + 1], q);
  }

  lemma {:induction false} RankGrows(cfg: Config, run: seq<State>, acts: seq<Action>, j: nat, n: nat, q: nat)
    requires IsTrace(cfg, run, acts) && j <= n < |run|
    ensures RankIn(run[j].requests, q) <= RankIn(run[n].requests, q)
    decreases n - j
  {
    if j < n {
      RankGrows(cfg, run, acts, j, n - 1, q);
      RankNext(cfg, run, acts, n - 1, q);
    }
  }

  /** The worker of request `q` gives its answer. */
  predicate AnsweredAt(acts: seq<Action>, j: nat, q: nat, result: Option<Outcome>) {
    j < |acts| && acts[j] == WorkerFinishes(q, result)
  }

  lemma AnswerMoves(cfg: Config, run: seq<State>, acts: seq<Action>, j: nat, q: nat, result: Option<Outcome>)
    requires IsTrace(cfg, run, acts) && AnsweredAt(acts, j, q, result)
    ensures RankIn(run[j].requests, q) == 2 && RankIn(run[j + 1].requests, q) == 3
  {
    assert Acted(cfg, run, acts, j);
  }

  lemma AnswersInOrder(cfg: Config, run: seq<State>, acts: seq<Action>, j: nat, k: nat, q: nat,
                       first: Option<Outcome>, second: Option<Outcome>)
    requires IsTrace(cfg, run, acts) && AnsweredAt(acts, j, q, first) && AnsweredAt(acts, k, q, second)
    ensures !(j < k)
  {
    AnswerMoves(cfg, run, acts, j, q, first);
    AnswerMoves(cfg, run, acts, k, q, second);
    if j < k { RankGrows(cfg, run, acts, j + 1, k, q); }
  }

  /** No request is answered twice. */
  lemma AnswersOnce(cfg: Config, run: seq<State>, acts: seq<Action>, j: nat, k: nat, q: nat,
                    first: Option<Outcome>, second: Option<Outcome>)
    requires IsTrace(cfg, run, acts) && AnsweredAt(acts, j, q, first) && AnsweredAt(acts, k, q, second)
    ensures j == k && first == second
  {
    AnswersInOrder(cfg, run, acts, j, k, q, first, second);
    AnswersInOrder(cfg, run, acts, k, j, q, second, first);
  }

  // ---------------------------------------------------------------- what the caller is told

  predicate ExpiredAt(run: seq<State>, acts: seq<Action>, j: nat, q: nat)
    requires |run| == |acts| + 1
  {
    j < |acts| && (acts[j] == Sweep(q, true) || (acts[j] == Admit(true) && HeadIs(run[j], q)))
  }

  lemma TargetedLater(run: seq<State>, j: nat, n: nat, q: nat)
    requires Targeted(run, j, q) && j <= n
    ensures Targeted(run, n, q)
  {
  }

  lemma DecisionIsAnswer(cfg: Config, run: seq<State>, acts: seq<Action>, j: nat, n: nat, q: nat, outcome: Outcome)
    requires IsTrace(cfg, run, acts) && j < n < |run| && DecidedAt(cfg, run, acts, j, q, outcome)
    requires !Targeted(run, n, q)
    ensures AnsweredAt(acts, j, q, Some(outcome)) || (outcome.TimedOut? && ExpiredAt(run, acts, j, q))
  {
    TraceIsRun(cfg, run, acts);
    RunKeepsInv(cfg, run, j);
    assert Acted(cfg, run, acts, j);
    if FlaggedIn(run[j].requests, q) {
      FlagMeansTargeted(cfg, run, j, q);
      TargetedLater(run, j, n, q);
      assert false;
    }
  }

  /**
   What a caller is told of a request no cancel targeted: the answer its worker gave, while the
   request was undecided, or a timeout, if a sweep or an admission found the deadline passed
   while the request was undecided.
   */
  lemma CallerIsToldTheAnswer(cfg: Config, run: seq<State>, acts: seq<Action>, n: nat, i: nat) returns (j: nat)
    requires IsTrace(cfg, run, acts) && n < |run| && i < |run[n].delivered|
    requires !Targeted(run, n, run[n].delivered[i].q)
    ensures var d := run[n].delivered[i];
            && j < n && DecidedAt(cfg, run, acts, j, d.q, d.outcome)
            && (AnsweredAt(acts, j, d.q, Some(d.outcome)) || (d.outcome.TimedOut? && ExpiredAt(run, acts, j, d.q)))
    ensures var d := run[n].delivered[i];
            forall k: nat, r: Option<Outcome> ::
              AnsweredAt(acts, k, d.q, r) && !d.outcome.TimedOut? ==> k == j && r == Some(d.outcome)
  {
    TraceIsRun(cfg, run, acts);
    RunKeepsInv(cfg, run, n);
    var d := run[n].delivered[i];
    assert Outgoing(run[n])[i] == d && Truthful(run[n], Outgoing(run[n])[i]);
    j := DecisionHasCause(cfg, run, acts, n, d.q);
    DecisionIsAnswer(cfg, run, acts, j, n, d.q, d.outcome);
    forall k: nat, r: Option<Outcome> | AnsweredAt(acts, k, d.q, r) && !d.outcome.TimedOut?
      ensures k == j && r == Some(d.outcome)
    {
      AnswersOnce(cfg, run, acts, j, k, d.q, Some(d.outcome), r);
    }
  }

  // ---------------------------------------------------------------- taking results

  /** The results callers have taken in the first `n` steps. */
  function TakenBy(run: seq<State>, acts: seq<Action>, n: nat): seq<Delivery>
    requires |run| == |acts| + 1 && n < |run|
  {
    if n == 0 then []
    else if acts[n - 1].TakeResult? && run[n - 1].results != []
    then TakenBy(run, acts, n - 1) + [run[n - 1].results[0]]
    else TakenBy(run, acts, n - 1)
  }

  /** What a step other than a take does to the mailbox: the same results enter it and the history, or it is closed. */
  predicate MailboxGrows(s: State, t: State) {
    || (t.closed && t.results == [] && t.delivered == s.delivered)
    || (t.closed == s.closed && t.results == s.results && t.delivered == s.delivered)
    || (!s.closed && !t.closed && |t.delivered| == |s.delivered| + 1
        && t.delivered == s.delivered + [t.delivered[|s.delivered|]]
        && t.results == s.results + [t.delivered[|s.delivered|]])
  }

  lemma ExecutorFills(cfg: Config, s: State, t: State)
    requires InputOk(s) && ExecutorStep(cfg, s) == Some(t)
    ensures MailboxGrows(s, t)
  {
  }

  lemma AdmitFills(cfg: Config, s: State, due: bool, t: State)
    requires AdmitStep(cfg, s, due) == Some(t)
    ensures MailboxGrows(s, t)
  {
    if Admissible(cfg, s) {
      var k, u := s.input[0], Popped(s);
      assert u.results == s.results && u.delivered == s.delivered && u.closed == s.closed;
      if s.requests[k].cancelFlag || (due && s.requests[k].claimed.Some?) { assert t == AdmitCancelled(cfg, u, k); }
      else if due { assert t == AdmitExpired(cfg, u, k); }
      else { assert t == AdmitLaunch(u, k); }
    }
  }

  predicate AtOneRequest(a: Action) {
    || a.MarkCancelled? || a.FinishCancel? || a.ReleaseLease? || a.CountKind? || a.CountTotal?
    || a.WorkerFinishes? || a.WorkerPushes? || a.Spawn? || a.Process? || a.Sweep?
  }

  lemma CallerFills(cfg: Config, s: State, a: Action, t: State)
    requires Step(cfg, s, a) == Some(t)
    requires a.MarkCancelled? || a.FinishCancel? || a.ReleaseLease? || a.CountKind? || a.CountTotal?
    ensures MailboxGrows(s, t)
  {
  }

  lemma WorkerFills(cfg: Config, s: State, a: Action, t: State)
    requires Step(cfg, s, a) == Some(t) && (a.WorkerFinishes? || a.WorkerPushes? || a.Spawn?)
    ensures MailboxGrows(s, t)
  {
  }

  lemma RoundFills(cfg: Config, s: State, a: Action, t: State)
    requires Step(cfg, s, a) == Some(t) && (a.Process? || a.Sweep?)
    ensures MailboxGrows(s, t)
  {
  }

  lemma OthersFill(cfg: Config, s: State, a: Action, t: State)
    requires Step(cfg, s, a) == Some(t) && !a.TakeResult? && !a.Executor? && !a.Admit? && !AtOneRequest(a)
    ensures MailboxGrows(s, t)
  {
  }

  lemma StepFills(cfg: Config, s: State, a: Action, t: State)
    requires InputOk(s) && Step(cfg, s, a) == Some(t) && !a.TakeResult?
    ensures MailboxGrows(s, t)
  {
    match a
    case Executor => ExecutorFills(cfg, s, t);
    case Admit(due) => AdmitFills(cfg, s, due, t);
    case MarkCancelled(_) => CallerFills(cfg, s, a, t);
    case FinishCancel(_) => CallerFills(cfg, s, a, t);
    case ReleaseLease(_) => CallerFills(cfg, s, a, t);
    case CountKind(_) => CallerFills(cfg, s, a, t);
    case CountTotal(_) => CallerFills(cfg, s, a, t);
    case WorkerFinishes(_, _) => WorkerFills(cfg, s, a, t);
    case WorkerPushes(_) => WorkerFills(cfg, s, a, t);
    case Spawn(_) => WorkerFills(cfg, s, a, t);
    case Process(_) => RoundFills(cfg, s, a, t);
    case Sweep(_, _) => RoundFills(cfg, s, a, t);
    case _ => OthersFill(cfg, s, a, t);
  }

  /** Nothing is missing, or the mailbox has been cleared. */
  predicate Settles(taken: seq<Delivery>, s: State) {
    taken + s.results <= s.delivered && (!s.closed ==> taken + s.results == s.delivered)
  }

  lemma TakeSettles(taken: seq<Delivery>, s: State, t: State)
    requires Settles(taken, s) && TakeStep(s) == Some(t)
    ensures s.results != [] && Settles(taken + [s.results[0]], t)
  {
    assert s.results == [s.results[0]] + s.results[1..];
    assert taken + s.results == (taken + [s.results[0]]) + s.results[1..];
  }

  lemma OtherSettles(taken: seq<Delivery>, s: State, t: State)
    requires Settles(taken, s) && MailboxGrows(s, t)
    ensures Settles(taken, t)
  {
    if |t.delivered| == |s.delivered| + 1 {
      assert taken + t.results == (taken + s.results) + [t.delivered[|s.delivered|]];
    }
  }

  /**
   Callers take what was delivered, in that order and each result once; until the stream is
   closed, nothing delivered is missing from what was taken and what is left to take.
   */
  lemma {:induction false} ResultsAreTakenInOrder(cfg: Config, run: seq<State>, acts: seq<Action>, n: nat)
    requires IsTrace(cfg, run, acts) && n < |run|
    ensures TakenBy(run, acts, n) + run[n].results <= run[n].delivered
    ensures !run[n].closed ==> TakenBy(run, acts, n) + run[n].results == run[n].delivered
  {
    if n > 0 {
      ResultsAreTakenInOrder(cfg, run, acts, n - 1);
      TraceIsRun(cfg, run, acts);
      RunKeepsInv(cfg, run, n - 1);
      assert Acted(cfg, run, acts, n - 1);
      var taken, s := TakenBy(run, acts, n - 1), run[n - 1];
      if acts[n - 1].TakeResult? {
        TakeSettles(taken, s, run[n]);
      } else {
        StepFills(cfg, s, acts[n - 1], run[n]);
        OtherSettles(taken, s, run[n]);
      }
    }
  }

  // ---------------------------------------------------------------- coming in

  /**
   A submission that is not refused outright is accepted exactly if the stream is open and fewer
   requests wait in its input than the capacity; it then waits at the end, with its lease.
   */
  lemma SubmissionAcceptedIff(cfg: Config, run: seq<State>, n: nat, refused: bool, t: State)
    requires IsRun(cfg, run) && n < |run| && Step(cfg, run[n], Submit(refused)) == Some(t)
    ensures var s := run[n];
            if !refused && !s.closed && |s.requests| - s.popped < cfg.inputCapacity
            then t.requests == s.requests + [Request(Queued, false, None, true, false, false)]
              && t.input == s.input + [|s.requests|] && t.inFlight == s.inFlight
            else t.requests == s.requests && t.input == s.input && t.inFlight == s.inFlight - 1
  {
    RunKeepsInv(cfg, run, n);
  }

  /** A slot can be acquired exactly if some slot is neither held by a caller nor leased to a request. */
  lemma SlotAcquiredIff(cfg: Config, run: seq<State>, n: nat)
    requires IsRun(cfg, run) && n < |run|
    ensures Step(cfg, run[n], AcquireLease).Some? <==> run[n].held + |Leases(run[n].requests)| < cfg.slots
  {
    SlotsAreLiveLeases(cfg, run, n);
  }

  /** A round starts with every completion posted so far, and with none left behind. */
  lemma DrainTakesAll(cfg: Config, s: State, t: State, q: nat)
    requires Step(cfg, s, Drain) == Some(t) && !s.closed && q < |s.requests|
    ensures |t.requests| == |s.requests| && !t.requests[q].stage.Posted?
    ensures s.requests[q].stage.Posted? ==> t.requests[q].stage == Drained(s.requests[q].stage.result)
  {
  }

  // ---------------------------------------------------------------- no slot is leaked

  /** A request dropped with its lease, and claimed by nobody, is about to be claimed by a cancellation. */
  predicate LeakFree(s: State, q: nat) {
    q < |s.requests| && s.requests[q].stage.Discarded? && s.requests[q].claimed.None? && s.requests[q].lease ==>
      s.cancelling[q] > 0
  }

  lemma MarkLeaksNothing(s: State, k: nat, t: State, q: nat)
    requires MarkStep(s, k) == Some(t) && LeakFree(s, q)
    ensures LeakFree(t, q)
  {
  }

  lemma CancelLeaksNothing(s: State, k: nat, t: State, q: nat)
    requires FinishCancelStep(s, k) == Some(t) && LeakFree(s, q)
    ensures LeakFree(t, q)
  {
  }

  lemma WinnerLeaksNothing(cfg: Config, s: State, a: Action, t: State, q: nat)
    requires Step(cfg, s, a) == Some(t) && LeakFree(s, q) && (a.ReleaseLease? || a.CountKind? || a.CountTotal?)
    ensures LeakFree(t, q)
  {
  }

  lemma WorkerLeaksNothing(cfg: Config, s: State, a: Action, t: State, q: nat)
    requires Step(cfg, s, a) == Some(t) && LeakFree(s, q) && (a.WorkerFinishes? || a.Spawn?)
    ensures LeakFree(t, q)
  {
  }

  /** A completion discarded after the stop belongs to a request somebody has claimed. */
  lemma PushLeaksNothing(cfg: Config, s: State, k: nat, t: State, q: nat)
    requires Inv(cfg, s) && PushStep(s, k) == Some(t) && LeakFree(s, q)
    ensures LeakFree(t, q)
  {
    assert RequestAt(cfg, s, k);
  }

  lemma ProcessLeaksNothing(cfg: Config, s: State, k: nat, t: State, q: nat)
    requires ProcessStep(cfg, s, k) == Some(t) && LeakFree(s, q)
    ensures LeakFree(t, q)
  {
  }

  lemma CloseLeaksNothing(cfg: Config, s: State, t: State, q: nat)
    requires Inv(cfg, s) && CloseStep(s) == Some(t) && LeakFree(s, q)
    ensures LeakFree(t, q)
  {
    if q < |s.requests| {
      assert RequestAt(cfg, s, q);
      assert t.requests[q] == CloseOne(s, q);
    }
  }

  lemma MailboxLeaksNothing(cfg: Config, s: State, a: Action, t: State, q: nat)
    requires Step(cfg, s, a) == Some(t) && LeakFree(s, q)
    requires a.AcquireLease? || a.Submit? || a.TakeResult? || a.BeginStop? || a.Drain?
          || a.NotifyCancel? || a.NotifyStop? || a.DeadlineElapses?
    ensures LeakFree(t, q)
  {
  }

  lemma SweepLeaksNothing(cfg: Config, s: State, k: nat, due: bool, t: State, q: nat)
    requires SweepStep(cfg, s, k, due) == Some(t) && LeakFree(s, q)
    ensures LeakFree(t, q)
  {
  }

  lemma AdmitLeaksNothing(cfg: Config, s: State, due: bool, t: State, q: nat)
    requires AdmitStep(cfg, s, due) == Some(t) && LeakFree(s, q)
    ensures LeakFree(t, q)
  {
    AdmitKeepsCancelling(cfg, s, due, t);
    if Admissible(cfg, s) { AdmitTouches(cfg, s, due, t, s.input[0]); }
  }

  lemma StepLeaksNothing(cfg: Config, s: State, a: Action, t: State, q: nat)
    requires Inv(cfg, s) && Step(cfg, s, a) == Some(t) && LeakFree(s, q)
    ensures LeakFree(t, q)
  {
    match a
    case Admit(due) => AdmitLeaksNothing(cfg, s, due, t, q);
    case Sweep(k, due) => SweepLeaksNothing(cfg, s, k, due, t, q);
    case Executor =>
      DeliveryKeepsRequests(cfg, s, t);
      ExecutorKeepsCancelling(cfg, s, a, t);
    case CloseMailbox => CloseLeaksNothing(cfg, s, t, q);
    case FinishCancel(k) => CancelLeaksNothing(s, k, t, q);
    case ReleaseLease(_) => WinnerLeaksNothing(cfg, s, a, t, q);
    case CountKind(_) => WinnerLeaksNothing(cfg, s, a, t, q);
    case CountTotal(_) => WinnerLeaksNothing(cfg, s, a, t, q);
    case MarkCancelled(k) => MarkLeaksNothing(s, k, t, q);
    case WorkerFinishes(_, _) => WorkerLeaksNothing(cfg, s, a, t, q);
    case WorkerPushes(k) => PushLeaksNothing(cfg, s, k, t, q);
    case Spawn(_) => WorkerLeaksNothing(cfg, s, a, t, q);
    case Process(k) => ProcessLeaksNothing(cfg, s, k, t, q);
    case _ => MailboxLeaksNothing(cfg, s, a, t, q);
  }

  lemma LeaksNothingAt(cfg: Config, run: seq<State>, n: nat, q: nat)
    requires IsRun(cfg, run) && 0 < n < |run| && LeakFree(run[n - 1], q)
    ensures LeakFree(run[n], q)
  {
    RunKeepsInv(cfg, run, n - 1);
    assert Linked(cfg, run, n);
    var a :| Step(cfg, run[n - 1], a) == Some(run[n]);
    StepLeaksNothing(cfg, run[n - 1], a, run[n], q);
  }

  /**
   No slot is leaked: every lease a request holds is still wanted by it, about to be given back by
   the winner, or, when the request was dropped by a stop, by the cancellation under way.
   */
  lemma {:induction false} NoSlotIsLeaked(cfg: Config, run: seq<State>, n: nat, q: nat)
    requires IsRun(cfg, run) && n < |run|
    ensures LeakFree(run[n], q)
    ensures q in Leases(run[n].requests) ==>
              || (run[n].requests[q].claimed.None? && !run[n].requests[q].stage.Discarded?)
              || ReleaseStep(run[n], q).Some? || FinishCancelStep(run[n], q).Some?
  {
    if n > 0 {
      NoSlotIsLeaked(cfg, run, n - 1, q);
      LeaksNothingAt(cfg, run, n, q);
    }
  }
}
