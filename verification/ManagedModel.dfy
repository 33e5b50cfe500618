/**
 The managed asynchronous stream: callers submit requests holding an admission lease,
 an executor orders, times out and windows them, one worker per launched request runs the
 adapter, and workers, timeouts, cancellations and stop race for one terminal flag per
 request. Each lock-protected region and each atomic flag access is one step: winning the
 terminal flag and giving the admission lease back are two, and so are flagging a request as
 cancelled, claiming it and notifying the executor. Clocks and adapter outcomes are arbitrary.
 A request is named by its sequence number.
 */
module ManagedModel {
  import opened Optional

  datatype Config = Config(strict: bool, maxInFlight: nat, inputCapacity: nat, resultCapacity: nat, slots: nat)

  /** Which terminal metric a request ends in. */
  datatype Outcome = Succeeded | RetryExhausted | Failed | TimedOut | Cancelled

  datatype Stage =
    | Queued
    | Launching
    | Running
    | Finished(result: Option<Outcome>)
    | Posted(result: Option<Outcome>)
    | Drained(result: Option<Outcome>)
    | Retired
    | Discarded

  /**
   `claimed` is the terminal flag together with who won it; `lease` says whether the request
   still owns its admission slot, which the winner gives back after winning; the two counted
   flags say which metrics the winner has bumped after that.
   */
  datatype Request = Request(
    stage: Stage,
    cancelFlag: bool,
    claimed: Option<Outcome>,
    lease: bool,
    kindCounted: bool,
    totalCounted: bool)

  datatype Delivery = Delivery(q: nat, outcome: Outcome)

  datatype Pc =
    | Draining
    | Processing
    | Sweeping(todo: set<nat>)
    | DeliverRelaxed
    | DeliverStrict
    | Admitting
    | Spawning
    | Parked
    | Ended

  datatype Counts = Counts(completed: nat, succeeded: nat, retryExhausted: nat, failed: nat, timedOut: nat,
                           cancelled: nat)

  /**
   What decides whether the executor parks and whether it is woken: `progress` says that its
   round has done something, `notifying` lists the cancellations that have yet to notify it,
   `stopNotified` says that the stop has, and `timed` that the last admission left a deadline
   to wait for. `clean` is history: the requests this round's sweep found unflagged.
   */
  datatype Park = Park(progress: bool, notifying: multiset<nat>, stopNotified: bool, timed: bool, clean: set<nat>)

  /**
   `requests[q]` is the request with sequence number q. `popped`, `delivered` and `emitted`
   are history: how many inputs were taken, every result ever put into the result mailbox,
   and every request whose result entered an outgoing queue. `held` counts leases acquired
   but not yet handed to a submission, and `cancelling` lists who has flagged a request but
   not yet tried to claim it.
   */
  datatype State = State(
    requests: seq<Request>,
    input: seq<nat>,
    popped: nat,
    closed: bool,
    stopping: bool,
    results: seq<Delivery>,
    delivered: seq<Delivery>,
    emitted: set<nat>,
    active: set<nat>,
    ordered: map<nat, Option<Outcome>>,
    relaxed: seq<Delivery>,
    next: nat,
    pc: Pc,
    cancelling: multiset<nat>,
    park: Park,
    held: nat,
    inFlight: nat,
    counts: Counts)

  const IDLE := Park(false, multiset{}, false, false, {})
  const NO_COUNTS := Counts(0, 0, 0, 0, 0, 0)
  const INITIAL :=
    State([], [], 0, false, false, [], [], {}, {}, map[], [], 0, Draining, multiset{}, IDLE, 0, 0, NO_COUNTS)

  datatype Action =
    | AcquireLease
    | Submit(refused: bool)
    | MarkCancelled(q: nat)
    | FinishCancel(q: nat)
    | NotifyCancel(q: nat)
    | ReleaseLease(q: nat)
    | CountKind(q: nat)
    | CountTotal(q: nat)
    | WorkerFinishes(q: nat, result: Option<Outcome>)
    | WorkerPushes(q: nat)
    | TakeResult
    | BeginStop
    | CloseMailbox
    | NotifyStop
    | DeadlineElapses
    | Drain
    | Process(q: nat)
    | Sweep(q: nat, due: bool)
    | Executor
    | Admit(due: bool)
    | Spawn(q: nat)

  /** The executor holds the mailbox lock while it delivers and admits. */
  predicate MailboxFree(s: State) {
    !s.pc.DeliverRelaxed? && !s.pc.DeliverStrict? && !s.pc.Admitting?
  }

  function Set(s: State, q: nat, r: Request): State
    requires q < |s.requests|
  {
    s.(requests := s.requests[q := r])
  }

  /** Winning the terminal flag; the lease is given back by a step of its own. */
  function Claim(s: State, q: nat, outcome: Outcome, stage: Stage): State
    requires q < |s.requests|
  {
    Set(s, q, s.requests[q].(stage := stage, claimed := Some(outcome)))
  }

  function ReleaseStep(s: State, q: nat): Option<State> {
    if q >= |s.requests| || s.requests[q].claimed.None? || !s.requests[q].lease then None
    else Some(Set(s, q, s.requests[q].(lease := false)).(inFlight := if s.inFlight > 0 then s.inFlight - 1 else 0))
  }

  /** A notification restarts a parked executor and is lost on one that is not. */
  function Wake(s: State): State {
    if s.pc.Parked? then s.(pc := Draining) else s
  }

  /** A refused submission (stopping, wrong session, duplicate id, full mailbox) drops its lease. */
  function SubmitStep(cfg: Config, s: State, refused: bool): Option<State> {
    if s.held == 0 || !MailboxFree(s) then None
    else if refused || s.closed || |s.input| >= cfg.inputCapacity then
      Some(s.(held := s.held - 1, inFlight := if s.inFlight > 0 then s.inFlight - 1 else 0))
    else
      Some(Wake(s.(held := s.held - 1,
                   requests := s.requests + [Request(Queued, false, None, true, false, false)],
                   input := s.input + [|s.requests|])))
  }

  /** A request cleared from the input with nobody cancelling it is gone for good. */
  predicate Dropped(s: State, q: nat)
    requires q < |s.requests|
  {
    s.requests[q].stage.Discarded? && s.requests[q].claimed.None? && s.cancelling[q] == 0
  }

  function FinishCancelStep(s: State, q: nat): Option<State> {
    if q >= |s.requests| || s.cancelling[q] == 0 then None
    else
      var t := s.(cancelling := s.cancelling - multiset{q},
                  park := s.park.(notifying := s.park.notifying + multiset{q}));
      Some(if s.requests[q].claimed.Some? then t else Claim(t, q, Cancelled, s.requests[q].stage))
  }

  /** The notification takes no lock, so it may fall anywhere in the executor's round. */
  function NotifyCancelStep(s: State, q: nat): Option<State> {
    if s.park.notifying[q] == 0 then None
    else Some(Wake(s.(park := s.park.(notifying := s.park.notifying - multiset{q}))))
  }

  function Bump(c: Counts, outcome: Outcome): Counts {
    match outcome
    case Succeeded => c.(succeeded := c.succeeded + 1)
    case RetryExhausted => c.(retryExhausted := c.retryExhausted + 1)
    case Failed => c.(failed := c.failed + 1)
    case TimedOut => c.(timedOut := c.timedOut + 1)
    case Cancelled => c.(cancelled := c.cancelled + 1)
  }

  /** A worker ends without a result only because it saw the cancellation flag. */
  predicate PossibleResult(r: Request, result: Option<Outcome>) {
    if result.None? then r.cancelFlag else !result.value.Cancelled?
  }

  /** The losing worker discards its result; a winner without one counts as failed. */
  function WorkerStep(s: State, q: nat, result: Option<Outcome>): Option<State> {
    if q >= |s.requests| || !s.requests[q].stage.Running? || !PossibleResult(s.requests[q], result) then None
    else if s.requests[q].claimed.Some? then Some(Set(s, q, s.requests[q].(stage := Finished(None))))
    else Some(Claim(s, q, if result.Some? then result.value else Failed, Finished(result)))
  }

  function PushStep(s: State, q: nat): Option<State> {
    if q >= |s.requests| || !s.requests[q].stage.Finished? || !MailboxFree(s) then None
    else if s.closed then Some(Set(s, q, s.requests[q].(stage := Discarded)))
    else Some(Wake(Set(s, q, s.requests[q].(stage := Posted(s.requests[q].stage.result)))))
  }

  function DrainOne(r: Request): Request {
    if r.stage.Posted? then r.(stage := Drained(r.stage.result)) else r
  }

  /** Closing clears the mailbox; a cleared request drops its lease unless somebody who cancels it will. */
  function CloseOne(s: State, q: nat): Request
    requires q < |s.requests|
  {
    var r := s.requests[q];
    if r.stage.Posted? then r.(stage := Discarded)
    else if r.stage.Queued? then
      (if s.cancelling[q] > 0 || r.claimed.Some? then r.(stage := Discarded)
       else r.(stage := Discarded, lease := false))
    else r
  }

  function Leases(requests: seq<Request>): set<nat> {
    set q: nat | q < |requests| && requests[q].lease
  }

  function CloseStep(s: State): Option<State> {
    if !s.stopping || s.closed || !MailboxFree(s) then None
    else
      var requests := seq(|s.requests|, q requires 0 <= q < |s.requests| => CloseOne(s, q));
      var dropped := |Leases(s.requests)| - |Leases(requests)|;
      Some(s.(requests := requests, closed := true, input := [], results := [],
              inFlight := if 0 <= dropped <= s.inFlight then s.inFlight - dropped else 0))
  }

  predicate AnyPosted(requests: seq<Request>) {
    exists q :: 0 <= q < |requests| && requests[q].stage.Posted?
  }

  function DrainStep(s: State): Option<State> {
    if !s.pc.Draining? then None
    else if s.closed then Some(s.(pc := Ended))
    else Some(s.(pc := Processing,
                 park := s.park.(progress := AnyPosted(s.requests), clean := {}),
                 requests := seq(|s.requests|, q requires 0 <= q < |s.requests| => DrainOne(s.requests[q]))))
  }

  /** What a retired completion contributes: an ordered resolution or a relaxed result. */
  function Resolve(cfg: Config, s: State, q: nat, result: Option<Outcome>): State {
    if cfg.strict then (if q >= s.next && q !in s.ordered then s.(ordered := s.ordered[q := result]) else s)
    else if result.Some? then s.(relaxed := s.relaxed + [Delivery(q, result.value)], emitted := s.emitted + {q})
    else s
  }

  /** A drained completion leaves `active` and, unless already resolved, becomes its request's resolution. */
  function ProcessStep(cfg: Config, s: State, q: nat): Option<State> {
    if !s.pc.Processing? || q >= |s.requests| || !s.requests[q].stage.Drained? then None
    else
      var t := Set(s, q, s.requests[q].(stage := Retired)).(active := s.active - {q});
      Some(Resolve(cfg, t, q, s.requests[q].stage.result))
  }

  /** A timeout that wins the terminal flag resolves its request at once. */
  function Expire(cfg: Config, s: State, q: nat): State
    requires q < |s.requests|
  {
    var c := Claim(s, q, TimedOut, s.requests[q].stage);
    if cfg.strict then (if q in s.ordered then c else c.(ordered := s.ordered[q := Some(TimedOut)]))
    else c.(relaxed := s.relaxed + [Delivery(q, TimedOut)], emitted := s.emitted + {q})
  }

  /** The sweep resolves cancelled requests at once and times out those past their deadline. */
  function SweepStep(cfg: Config, s: State, q: nat, due: bool): Option<State> {
    if !s.pc.Sweeping? || q !in s.pc.todo || q >= |s.requests| then None
    else
      var t := s.(pc := Sweeping(s.pc.todo - {q}));
      if s.requests[q].cancelFlag then
        Some(if cfg.strict && q >= s.next && q !in s.ordered then t.(ordered := s.ordered[q := None]) else t)
      else
        var u := t.(park := s.park.(clean := s.park.clean + {q}));
        Some(if !due || s.requests[q].claimed.Some? then u else Expire(cfg, u, q))
  }

  /** One round of the loop that moves relaxed results into the result mailbox. */
  function RelaxedRound(cfg: Config, s: State): State {
    if |s.results| < cfg.resultCapacity && s.relaxed != [] then
      s.(results := s.results + [s.relaxed[0]], delivered := s.delivered + [s.relaxed[0]], relaxed := s.relaxed[1..],
         park := s.park.(progress := true))
    else s.(pc := DeliverStrict)
  }

  /** One round of the loop that hands on ordered resolutions from `next` upwards. */
  function StrictRound(cfg: Config, s: State): State {
    if !cfg.strict || s.next !in s.ordered then s.(pc := Admitting)
    else if s.ordered[s.next].None? then
      s.(ordered := s.ordered - {s.next}, next := s.next + 1, park := s.park.(progress := true))
    else if |s.results| >= cfg.resultCapacity then s.(pc := Admitting)
    else
      var d := Delivery(s.next, s.ordered[s.next].value);
      s.(ordered := s.ordered - {s.next}, next := s.next + 1, results := s.results + [d],
         delivered := s.delivered + [d], emitted := s.emitted + {s.next}, park := s.park.(progress := true))
  }

  /** Moving on between the executor's phases, and the two delivery loops, one round at a time. */
  function ExecutorStep(cfg: Config, s: State): Option<State> {
    match s.pc
    case Processing =>
      if exists q :: 0 <= q < |s.requests| && s.requests[q].stage.Drained? then None
      else Some(s.(pc := Sweeping(s.active)))
    case Sweeping(todo) =>
      if todo != {} then None else if s.closed then Some(s.(pc := Ended)) else Some(s.(pc := DeliverRelaxed))
    case DeliverRelaxed => Some(RelaxedRound(cfg, s))
    case DeliverStrict => Some(StrictRound(cfg, s))
    case Spawning =>
      if exists q :: 0 <= q < |s.requests| && s.requests[q].stage.Launching? then None else Some(s.(pc := Draining))
    case _ => None
  }

  predicate WindowFull(cfg: Config, s: State) {
    |s.active| + |s.ordered.Keys - s.active| + |s.relaxed| >= cfg.maxInFlight
  }

  /** A request popped after being cancelled, or after losing its timeout to a cancellation. */
  function AdmitCancelled(cfg: Config, s: State, q: nat): State
    requires q < |s.requests|
  {
    var u := Set(s, q, s.requests[q].(stage := Retired));
    if cfg.strict then u.(ordered := s.ordered[q := None]) else u
  }

  function AdmitExpired(cfg: Config, s: State, q: nat): State
    requires q < |s.requests|
  {
    var u := Claim(s, q, TimedOut, Retired);
    if cfg.strict then u.(ordered := s.ordered[q := Some(TimedOut)])
    else u.(relaxed := s.relaxed + [Delivery(q, TimedOut)], emitted := s.emitted + {q})
  }

  function AdmitLaunch(s: State, q: nat): State
    requires q < |s.requests|
  {
    Set(s, q, s.requests[q].(stage := Launching)).(active := s.active + {q})
  }

  function Popped(s: State): State
    requires s.input != []
  {
    s.(input := s.input[1..], popped := s.popped + 1, park := s.park.(progress := true))
  }

  /** A round without progress parks, unless a completion has arrived since it drained them. */
  function AfterAdmission(s: State): Pc {
    if s.park.progress then Spawning
    else if AnyPosted(s.requests) then Draining
    else Parked
  }

  predicate CanAdmit(cfg: Config, s: State) {
    !WindowFull(cfg, s) && s.input != [] && s.input[0] < |s.requests|
  }

  predicate DeadlineAhead(s: State) {
    exists q :: q in s.active && q < |s.requests| && s.requests[q].claimed.None?
  }

  /** The deadline to wait for is fixed here, among the active requests nobody has claimed so far. */
  function EndAdmission(s: State): State {
    s.(pc := AfterAdmission(s), park := s.park.(timed := DeadlineAhead(s)))
  }

  function AdmitStep(cfg: Config, s: State, due: bool): Option<State> {
    if !s.pc.Admitting? then None
    else if !CanAdmit(cfg, s) then Some(EndAdmission(s))
    else
      var q := s.input[0];
      if s.requests[q].cancelFlag || (due && s.requests[q].claimed.Some?) then Some(AdmitCancelled(cfg, Popped(s), q))
      else if due then Some(AdmitExpired(cfg, Popped(s), q))
      else Some(AdmitLaunch(Popped(s), q))
  }

  function AcquireStep(cfg: Config, s: State): Option<State> {
    if s.inFlight >= cfg.slots then None else Some(s.(held := s.held + 1, inFlight := s.inFlight + 1))
  }

  function MarkStep(s: State, q: nat): Option<State> {
    if q >= |s.requests| || Dropped(s, q) then None
    else Some(Set(s, q, s.requests[q].(cancelFlag := true)).(cancelling := s.cancelling + multiset{q}))
  }

  function CountKindStep(s: State, q: nat): Option<State> {
    if q >= |s.requests| || s.requests[q].claimed.None? || s.requests[q].lease || s.requests[q].kindCounted then None
    else Some(Set(s, q, s.requests[q].(kindCounted := true)).(counts := Bump(s.counts, s.requests[q].claimed.value)))
  }

  function CountTotalStep(s: State, q: nat): Option<State> {
    if q >= |s.requests| || s.requests[q].claimed.None? || s.requests[q].lease || s.requests[q].totalCounted then None
    else
      Some(Set(s, q, s.requests[q].(totalCounted := true)).(counts := s.counts.(completed := s.counts.completed + 1)))
  }

  function TakeStep(s: State): Option<State> {
    if s.results == [] || !MailboxFree(s) then None else Some(Wake(s.(results := s.results[1..])))
  }

  /** The end of a stop notifies once, after the mailbox was closed. */
  function NotifyStopStep(s: State): Option<State> {
    if !s.closed || s.park.stopNotified then None else Some(Wake(s.(park := s.park.(stopNotified := true))))
  }

  /** A parked executor with a deadline wakes by itself, even if that request was claimed since. */
  function ElapseStep(s: State): Option<State> {
    if s.pc.Parked? && s.park.timed then Some(Wake(s)) else None
  }

  function SpawnStep(s: State, q: nat): Option<State> {
    if !s.pc.Spawning? || q >= |s.requests| || !s.requests[q].stage.Launching? then None
    else Some(Set(s, q, s.requests[q].(stage := Running)))
  }

  function Step(cfg: Config, s: State, a: Action): Option<State> {
    match a
    case AcquireLease => AcquireStep(cfg, s)
    case Submit(refused) => SubmitStep(cfg, s, refused)
    case MarkCancelled(q) => MarkStep(s, q)
    case FinishCancel(q) => FinishCancelStep(s, q)
    case NotifyCancel(q) => NotifyCancelStep(s, q)
    case ReleaseLease(q) => ReleaseStep(s, q)
    case CountKind(q) => CountKindStep(s, q)
    case CountTotal(q) => CountTotalStep(s, q)
    case WorkerFinishes(q, result) => WorkerStep(s, q, result)
    case WorkerPushes(q) => PushStep(s, q)
    case TakeResult => TakeStep(s)
    case BeginStop => if s.stopping then None else Some(s.(stopping := true))
    case CloseMailbox => CloseStep(s)
    case NotifyStop => NotifyStopStep(s)
    case DeadlineElapses => ElapseStep(s)
    case Drain => DrainStep(s)
    case Process(q) => ProcessStep(cfg, s, q)
    case Sweep(q, due) => SweepStep(cfg, s, q, due)
    case Executor => ExecutorStep(cfg, s)
    case Admit(due) => AdmitStep(cfg, s, due)
    case Spawn(q) => SpawnStep(s, q)
  }

  ghost predicate IsRun(cfg: Config, run: seq<State>) {
    && |run| > 0 && run[0] == INITIAL
    && forall i: nat {:trigger Linked(cfg, run, i)} :: 0 < i < |run| ==> Linked(cfg, run, i)
  }

  ghost predicate Linked(cfg: Config, run: seq<State>, i: nat)
    requires 0 < i < |run|
  {
    Follows(cfg, run[i - 1], run[i])
  }

  ghost predicate Follows(cfg: Config, s: State, t: State) {
    exists a :: Step(cfg, s, a) == Some(t)
  }
}
