/**
 When the executor of the managed stream parks, what it has left undone, and which wake-ups
 it can miss: none of the lock-protected ones, but a cancellation takes no lock.
 */
module ManagedPark {
  import opened Optional
  import opened ManagedModel
  import opened ManagedInvariant
  import opened ManagedExecutor
  import opened ManagedRuns
  import opened ManagedLoops

  // ---------------------------------------------------------------- the invariant

  /** From the sweep to the park. */
  predicate InRound(pc: Pc) {
    pc.Sweeping? || pc.DeliverRelaxed? || pc.DeliverStrict? || pc.Admitting? || pc.Parked?
  }

  function Todo(pc: Pc): set<nat> {
    if pc.Sweeping? then pc.todo else {}
  }

  predicate IsLaunching(requests: seq<Request>, q: nat) {
    q < |requests| && requests[q].stage.Launching?
  }

  /** Active, at or past the head, and without a resolution. */
  predicate Unresolved(s: State, q: nat) {
    q in s.active && s.next <= q && q !in s.ordered
  }

  predicate PendingFor(s: State, q: nat) {
    q in s.cancelling || q in s.park.notifying
  }

  /** What this round's sweep has passed and left unresolved it found unflagged. */
  predicate CleanAt(s: State, q: nat) {
    Unresolved(s, q) && q !in Todo(s.pc) && !IsLaunching(s.requests, q) ==> q in s.park.clean
  }

  ghost predicate RoundOk(cfg: Config, s: State) {
    && (s.pc.Processing? ==> s.park.clean == {})
    && (InRound(s.pc) && cfg.strict ==> forall q: nat {:trigger CleanAt(s, q)} :: CleanAt(s, q))
  }

  /** Launches happen while admitting and spawning only, drained completions exist while processing only. */
  predicate StageAt(s: State, q: nat)
    requires q < |s.requests|
  {
    && (s.requests[q].stage.Launching? ==> (s.pc.Admitting? && s.park.progress) || s.pc.Spawning?)
    && (s.requests[q].stage.Drained? ==> s.pc.Processing?)
    && (s.requests[q].stage.Posted? ==> !s.pc.Parked?)
  }

  ghost predicate StagesOk(s: State) {
    forall q: nat {:trigger StageAt(s, q)} :: q < |s.requests| ==> StageAt(s, q)
  }

  predicate RelaxedSettled(cfg: Config, s: State) {
    s.relaxed == [] || |s.results| >= cfg.resultCapacity
  }

  predicate Settled(cfg: Config, s: State) {
    && (s.pc.DeliverStrict? ==> RelaxedSettled(cfg, s))
    && (s.pc.Admitting? && !s.park.progress ==> RelaxedSettled(cfg, s) && HeadWaits(cfg, s))
    && (s.pc.Parked? && !s.closed ==> RelaxedSettled(cfg, s) && HeadWaits(cfg, s) && !CanAdmit(cfg, s))
    && (s.pc.Parked? && s.closed ==> !s.park.stopNotified)
    && (s.park.stopNotified ==> s.closed)
  }

  ghost predicate ParkOk(cfg: Config, s: State) {
    RoundOk(cfg, s) && StagesOk(s) && Settled(cfg, s)
  }

  // ---------------------------------------------------------------- steps outside the executor

  /** Nothing the executor decides with has changed: its own position, its sets, its queues. */
  predicate SameRound(s: State, t: State) {
    && t.pc == s.pc && t.active == s.active && t.ordered == s.ordered && t.next == s.next && t.relaxed == s.relaxed
    && t.results == s.results && t.input == s.input && t.closed == s.closed && |t.requests| == |s.requests|
    && t.park == s.park.(notifying := t.park.notifying)
  }

  /** One request changes, without being launched, drained or posted and without losing its flag. */
  predicate SameStages(s: State, t: State, q: nat) {
    && q < |s.requests| == |t.requests| && t.requests == s.requests[q := t.requests[q]]
    && (t.requests[q].stage == s.requests[q].stage || t.requests[q].stage.Finished? || t.requests[q].stage.Running?)
    && (s.requests[q].stage.Launching? ==> t.requests[q].stage.Launching? || s.pc.Spawning?)
  }

  lemma StagesStay(s: State, t: State, q: nat)
    requires StagesOk(s) && SameRound(s, t) && SameStages(s, t, q)
    ensures StagesOk(t)
  {
    forall k: nat | k < |t.requests| ensures StageAt(t, k) { assert StageAt(s, k); }
  }

  /** Steps that change neither flags nor notifications. */
  lemma OutsiderKeepsRound(cfg: Config, s: State, t: State, q: nat)
    requires RoundOk(cfg, s) && SameRound(s, t) && SameStages(s, t, q)
    requires t.requests[q].cancelFlag == s.requests[q].cancelFlag
    requires t.cancelling == s.cancelling && t.park == s.park
    ensures RoundOk(cfg, t)
  {
    if InRound(s.pc) {
      forall k: nat | cfg.strict ensures CleanAt(t, k) { assert CleanAt(s, k); }
    }
  }

  lemma OutsiderKeepsPark(cfg: Config, s: State, t: State, q: nat)
    requires ParkOk(cfg, s) && SameRound(s, t) && SameStages(s, t, q)
    requires t.requests[q].cancelFlag == s.requests[q].cancelFlag
    requires t.cancelling == s.cancelling && t.park == s.park
    ensures ParkOk(cfg, t)
  {
    OutsiderKeepsRound(cfg, s, t, q);
    StagesStay(s, t, q);
  }

  lemma MarkKeepsPark(cfg: Config, s: State, q: nat, t: State)
    requires ParkOk(cfg, s) && MarkStep(s, q) == Some(t)
    ensures ParkOk(cfg, t)
  {
    StagesStay(s, t, q);
    if InRound(s.pc) {
      forall k: nat | cfg.strict ensures CleanAt(t, k) { assert CleanAt(s, k); }
    }
  }

  lemma FinishCancelKeepsRound(cfg: Config, s: State, q: nat, t: State)
    requires RoundOk(cfg, s) && FinishCancelStep(s, q) == Some(t)
    ensures RoundOk(cfg, t)
  {
    if InRound(s.pc) {
      forall k: nat | cfg.strict ensures CleanAt(t, k) { assert CleanAt(s, k); }
    }
  }

  lemma FinishCancelIsLocal(s: State, q: nat, t: State)
    requires FinishCancelStep(s, q) == Some(t)
    ensures SameRound(s, t) && SameStages(s, t, q)
  {
  }

  lemma FinishCancelKeepsPark(cfg: Config, s: State, q: nat, t: State)
    requires ParkOk(cfg, s) && FinishCancelStep(s, q) == Some(t)
    ensures ParkOk(cfg, t)
  {
    FinishCancelIsLocal(s, q, t);
    StagesStay(s, t, q);
    FinishCancelKeepsRound(cfg, s, q, t);
  }

  /** A woken executor starts over, with nothing launched or drained behind it. */
  lemma WakeKeepsPark(cfg: Config, s: State, t: State)
    requires StagesOk(s) && s.pc.Parked? && t.pc.Draining? && (t.park.stopNotified ==> t.closed)
    requires |s.requests| <= |t.requests|
    requires forall q: nat :: q < |t.requests| && (t.requests[q].stage.Launching? || t.requests[q].stage.Drained?) ==>
               q < |s.requests| && t.requests[q].stage == s.requests[q].stage
    ensures ParkOk(cfg, t)
  {
    forall q: nat | q < |t.requests| ensures StageAt(t, q) { if q < |s.requests| { assert StageAt(s, q); } }
  }

  lemma NotifyCancelKeepsPark(cfg: Config, s: State, q: nat, t: State)
    requires ParkOk(cfg, s) && NotifyCancelStep(s, q) == Some(t)
    ensures ParkOk(cfg, t)
  {
    if s.pc.Parked? {
      WakeKeepsPark(cfg, s, t);
    } else {
      forall k: nat | k < |t.requests| ensures StageAt(t, k) { assert StageAt(s, k); }
      if InRound(s.pc) {
        forall k: nat | cfg.strict ensures CleanAt(t, k) { assert CleanAt(s, k); }
      }
    }
  }

  lemma SameKeepsPark(cfg: Config, s: State, t: State)
    requires ParkOk(cfg, s) && SameRound(s, t) && t.requests == s.requests
    requires t.cancelling == s.cancelling && t.park == s.park
    ensures ParkOk(cfg, t)
  {
    forall k: nat | k < |t.requests| ensures StageAt(t, k) { assert StageAt(s, k); }
    if InRound(s.pc) {
      forall k: nat | cfg.strict ensures CleanAt(t, k) { assert CleanAt(s, k); }
    }
  }

  /**
   Requests may be added or set aside, and stages may change, while the executor is not
   holding the mailbox or parked.
   */
  predicate SameSweep(s: State, t: State) {
    && t.pc == s.pc && MailboxFree(s) && !s.pc.Parked?
    && t.active == s.active && t.ordered == s.ordered && t.next == s.next
    && t.park == s.park.(stopNotified := t.park.stopNotified)
    && t.cancelling == s.cancelling && (t.park.stopNotified ==> t.closed)
    && |s.requests| <= |t.requests|
    && (forall q: nat :: q < |s.requests| ==> t.requests[q].cancelFlag == s.requests[q].cancelFlag)
    && (forall q: nat :: |s.requests| <= q < |t.requests| ==> !t.requests[q].cancelFlag && t.requests[q].stage.Queued?)
    && (forall q: nat :: q < |s.requests| && t.requests[q].stage != s.requests[q].stage ==>
          !s.requests[q].stage.Launching? && (t.requests[q].stage.Posted? || t.requests[q].stage.Discarded?))
  }

  lemma MailboxKeepsPark(cfg: Config, s: State, t: State)
    requires ParkOk(cfg, s) && SameSweep(s, t)
    ensures ParkOk(cfg, t)
  {
    forall k: nat | k < |t.requests| ensures StageAt(t, k) { if k < |s.requests| { assert StageAt(s, k); } }
    if InRound(s.pc) {
      forall k: nat | cfg.strict ensures CleanAt(t, k) { assert CleanAt(s, k); }
    }
  }

  lemma SubmitKeepsPark(cfg: Config, s: State, refused: bool, t: State)
    requires ParkOk(cfg, s) && SubmitStep(cfg, s, refused) == Some(t)
    ensures ParkOk(cfg, t)
  {
    if refused || s.closed || |s.input| >= cfg.inputCapacity {
      SameKeepsPark(cfg, s, t);
    } else if s.pc.Parked? {
      WakeKeepsPark(cfg, s, t);
    } else {
      MailboxKeepsPark(cfg, s, t);
    }
  }

  lemma TakeKeepsPark(cfg: Config, s: State, t: State)
    requires ParkOk(cfg, s) && TakeStep(s) == Some(t)
    ensures ParkOk(cfg, t)
  {
    if s.pc.Parked? { WakeKeepsPark(cfg, s, t); } else { MailboxKeepsPark(cfg, s, t); }
  }

  lemma PushKeepsPark(cfg: Config, s: State, q: nat, t: State)
    requires ParkOk(cfg, s) && PushStep(s, q) == Some(t)
    ensures ParkOk(cfg, t)
  {
    if !s.pc.Parked? {
      MailboxKeepsPark(cfg, s, t);
    } else if !s.closed {
      WakeKeepsPark(cfg, s, t);
    } else {
      ParkedDiscards(cfg, s, t);
    }
  }

  /** Closing, or discarding a completion afterwards, while the executor is parked. */
  lemma ParkedDiscards(cfg: Config, s: State, t: State)
    requires ParkOk(cfg, s) && s.pc.Parked? && t.pc.Parked? && t.closed
    requires !s.park.stopNotified && |t.requests| == |s.requests|
    requires t.active == s.active && t.ordered == s.ordered && t.next == s.next
    requires t.park == s.park && t.cancelling == s.cancelling
    requires forall q: nat :: q < |s.requests| ==>
               t.requests[q].cancelFlag == s.requests[q].cancelFlag
               && (t.requests[q].stage == s.requests[q].stage || t.requests[q].stage.Discarded?)
    ensures ParkOk(cfg, t)
  {
    forall k: nat | k < |t.requests| ensures StageAt(t, k) { assert StageAt(s, k); }
    forall k: nat | cfg.strict ensures CleanAt(t, k) {
      assert CleanAt(s, k);
      if k < |s.requests| { assert StageAt(s, k); }
    }
  }

  lemma CloseKeepsPark(cfg: Config, s: State, t: State)
    requires ParkOk(cfg, s) && CloseStep(s) == Some(t)
    ensures ParkOk(cfg, t)
  {
    forall q: nat | q < |s.requests|
      ensures t.requests[q].cancelFlag == s.requests[q].cancelFlag
      ensures t.requests[q].stage == s.requests[q].stage
              || (t.requests[q].stage.Discarded? && !s.requests[q].stage.Launching?)
    {
      assert t.requests[q] == CloseOne(s, q);
    }
    if s.pc.Parked? { ParkedDiscards(cfg, s, t); } else { MailboxKeepsPark(cfg, s, t); }
  }

  lemma NotifyStopKeepsPark(cfg: Config, s: State, t: State)
    requires ParkOk(cfg, s) && NotifyStopStep(s) == Some(t) && MailboxFree(s)
    ensures ParkOk(cfg, t)
  {
    if s.pc.Parked? { WakeKeepsPark(cfg, s, t); } else { MailboxKeepsPark(cfg, s, t); }
  }

  // ---------------------------------------------------------------- steps of the executor

  lemma DrainKeepsPark(cfg: Config, s: State, t: State)
    requires ParkOk(cfg, s) && DrainStep(s) == Some(t)
    ensures ParkOk(cfg, t)
  {
    forall k: nat | k < |t.requests| ensures StageAt(t, k) { assert StageAt(s, k); }
  }

  lemma ProcessKeepsPark(cfg: Config, s: State, q: nat, t: State)
    requires ParkOk(cfg, s) && ProcessStep(cfg, s, q) == Some(t)
    ensures ParkOk(cfg, t)
  {
    forall k: nat | k < |t.requests| ensures StageAt(t, k) { assert StageAt(s, k); }
  }

  /** The sweep passes one request, which is then resolved, behind the head, or found clean. */
  predicate SweepsOne(s: State, t: State, q: nat) {
    && s.pc.Sweeping? && t.pc == Sweeping(s.pc.todo - {q}) && q < |s.requests| == |t.requests|
    && t.requests == s.requests[q := t.requests[q]]
    && t.requests[q].cancelFlag == s.requests[q].cancelFlag && t.requests[q].stage == s.requests[q].stage
    && t.active == s.active && t.next == s.next && t.cancelling == s.cancelling
    && t.park == s.park.(clean := t.park.clean)
    && (forall k: nat :: k in s.ordered ==> k in t.ordered)
    && (t.park.clean == s.park.clean || (t.park.clean == s.park.clean + {q} && !s.requests[q].cancelFlag))
  }

  lemma ExpireIsLocal(cfg: Config, s: State, q: nat, t: State)
    requires q < |s.requests| && t == Expire(cfg, s, q)
    ensures t.pc == s.pc && t.requests == s.requests[q := t.requests[q]] && t.requests[q].stage == s.requests[q].stage
    ensures t.requests[q].cancelFlag == s.requests[q].cancelFlag && t.active == s.active && t.next == s.next
    ensures t.cancelling == s.cancelling && t.park == s.park && (forall k: nat :: k in s.ordered ==> k in t.ordered)
  {
  }

  lemma SweepIsOne(cfg: Config, s: State, q: nat, due: bool, t: State)
    requires SweepStep(cfg, s, q, due) == Some(t)
    ensures SweepsOne(s, t, q) && (cfg.strict && Unresolved(t, q) ==> q in t.park.clean)
  {
    if !s.requests[q].cancelFlag && due && s.requests[q].claimed.None? {
      var u := s.(pc := Sweeping(s.pc.todo - {q}), park := s.park.(clean := s.park.clean + {q}));
      ExpireIsLocal(cfg, u, q, t);
    }
  }

  lemma SweepKeepsRound(cfg: Config, s: State, q: nat, t: State)
    requires RoundOk(cfg, s) && SweepsOne(s, t, q) && (cfg.strict && Unresolved(t, q) ==> q in t.park.clean)
    ensures RoundOk(cfg, t)
  {
    forall k: nat | cfg.strict ensures CleanAt(t, k) { assert CleanAt(s, k); }
  }

  lemma SweepKeepsPark(cfg: Config, s: State, q: nat, due: bool, t: State)
    requires ParkOk(cfg, s) && SweepStep(cfg, s, q, due) == Some(t)
    ensures ParkOk(cfg, t)
  {
    SweepIsOne(cfg, s, q, due, t);
    SweepKeepsRound(cfg, s, q, t);
    forall k: nat | k < |t.requests| ensures StageAt(t, k) { assert StageAt(s, k); }
  }

  /** A round of the delivery loops only moves the head, past what is resolved. */
  lemma DeliveryKeepsPark(cfg: Config, s: State, t: State)
    requires ParkOk(cfg, s) && InRound(s.pc) && InRound(t.pc)
    requires !t.pc.Sweeping? && Todo(s.pc) == {} && t.requests == s.requests
    requires t.active == s.active && t.cancelling == s.cancelling && t.park == s.park.(progress := t.park.progress)
    requires s.next <= t.next && t.closed == s.closed && (s.park.progress ==> t.park.progress)
    requires forall q: nat :: t.next <= q ==> (q in t.ordered <==> q in s.ordered)
    requires !t.pc.Parked? && Settled(cfg, t) && !s.pc.Admitting? && !s.pc.Parked?
    ensures ParkOk(cfg, t)
  {
    forall k: nat | k < |t.requests| ensures StageAt(t, k) { assert StageAt(s, k); }
    forall k: nat | cfg.strict ensures CleanAt(t, k) { assert CleanAt(s, k); }
  }

  lemma RelaxedRoundKeepsPark(cfg: Config, s: State, t: State)
    requires ParkOk(cfg, s) && s.pc.DeliverRelaxed? && t == RelaxedRound(cfg, s)
    ensures ParkOk(cfg, t)
  {
    DeliveryKeepsPark(cfg, s, t);
  }

  lemma StrictRoundKeepsPark(cfg: Config, s: State, t: State)
    requires ParkOk(cfg, s) && s.pc.DeliverStrict? && t == StrictRound(cfg, s)
    ensures ParkOk(cfg, t)
  {
    DeliveryKeepsPark(cfg, s, t);
  }

  lemma PhaseKeepsPark(cfg: Config, s: State, t: State)
    requires ParkOk(cfg, s) && ExecutorStep(cfg, s) == Some(t) && (s.pc.Processing? || s.pc.Sweeping? || s.pc.Spawning?)
    ensures ParkOk(cfg, t)
  {
    forall k: nat | k < |t.requests| ensures StageAt(t, k) { assert StageAt(s, k); }
    if s.pc.Sweeping? && InRound(t.pc) {
      forall k: nat | cfg.strict ensures CleanAt(t, k) { assert CleanAt(s, k); }
    }
  }

  lemma ExecutorKeepsPark(cfg: Config, s: State, t: State)
    requires ParkOk(cfg, s) && ExecutorStep(cfg, s) == Some(t)
    ensures ParkOk(cfg, t)
  {
    match s.pc
    case DeliverRelaxed => RelaxedRoundKeepsPark(cfg, s, t);
    case DeliverStrict => StrictRoundKeepsPark(cfg, s, t);
    case _ => PhaseKeepsPark(cfg, s, t);
  }

  /** Admission stops and the executor parks, moves on or starts over. */
  lemma AdmissionEndKeepsPark(cfg: Config, s: State, t: State)
    requires ParkOk(cfg, s) && s.pc.Admitting? && !s.closed && !CanAdmit(cfg, s) && t == EndAdmission(s)
    ensures ParkOk(cfg, t)
  {
    forall k: nat | k < |t.requests| ensures StageAt(t, k) { assert StageAt(s, k); }
    EndCannotAdmit(cfg, s);
    if t.pc.Parked? {
      forall k: nat | cfg.strict ensures CleanAt(t, k) { assert CleanAt(s, k); }
    }
  }

  /** One popped request is resolved at once or launched. */
  predicate AdmitsOne(s: State, t: State, q: nat) {
    && s.pc.Admitting? && t.pc == s.pc && q < |s.requests| == |t.requests|
    && t.requests == s.requests[q := t.requests[q]]
    && t.park == s.park.(progress := true) && t.cancelling == s.cancelling && t.next == s.next && t.closed == s.closed
    && t.requests[q].cancelFlag == s.requests[q].cancelFlag
    && (t.requests[q].stage.Retired? || t.requests[q].stage.Launching?)
    && (forall k: nat :: k in t.active && !(k == q && t.requests[q].stage.Launching?) ==> k in s.active && k != q)
    && (forall k: nat :: k in s.ordered ==> k in t.ordered)
  }

  lemma AdmitOneKeepsPark(cfg: Config, s: State, t: State, q: nat)
    requires ParkOk(cfg, s) && AdmitsOne(s, t, q)
    ensures ParkOk(cfg, t)
  {
    forall k: nat | k < |t.requests| ensures StageAt(t, k) { assert StageAt(s, k); }
    forall k: nat | cfg.strict ensures CleanAt(t, k) { assert CleanAt(s, k); }
  }

  lemma AdmitIsOne(cfg: Config, s: State, due: bool, t: State)
    requires Inv(cfg, s) && Admissible(cfg, s) && AdmitStep(cfg, s, due) == Some(t)
    ensures AdmitsOne(s, t, s.popped)
  {
    FrontIsNext(cfg, s);
    var q, u := s.popped, Popped(s);
    if s.requests[q].cancelFlag || (due && s.requests[q].claimed.Some?) { assert t == AdmitCancelled(cfg, u, q); }
    else if due { assert t == AdmitExpired(cfg, u, q); }
    else { assert t == AdmitLaunch(u, q); }
  }

  lemma AdmitKeepsPark(cfg: Config, s: State, due: bool, t: State)
    requires Inv(cfg, s) && ParkOk(cfg, s) && AdmitStep(cfg, s, due) == Some(t)
    ensures ParkOk(cfg, t)
  {
    if Admissible(cfg, s) {
      AdmitIsOne(cfg, s, due, t);
      AdmitOneKeepsPark(cfg, s, t, s.popped);
    } else {
      AdmissionEndKeepsPark(cfg, s, t);
    }
  }

  // ---------------------------------------------------------------- every run

  lemma WinnerKeepsPark(cfg: Config, s: State, a: Action, t: State)
    requires ParkOk(cfg, s) && Step(cfg, s, a) == Some(t) && (a.ReleaseLease? || a.CountKind? || a.CountTotal?)
    ensures ParkOk(cfg, t)
  {
    OutsiderKeepsPark(cfg, s, t, a.q);
  }

  lemma WorkerKeepsPark(cfg: Config, s: State, a: Action, t: State)
    requires ParkOk(cfg, s) && Step(cfg, s, a) == Some(t) && (a.WorkerFinishes? || a.Spawn?)
    ensures ParkOk(cfg, t)
  {
    OutsiderKeepsPark(cfg, s, t, a.q);
  }

  lemma NotifierKeepsPark(cfg: Config, s: State, a: Action, t: State)
    requires InputOk(s) && ParkOk(cfg, s) && Step(cfg, s, a) == Some(t)
    requires a.NotifyCancel? || a.NotifyStop? || a.DeadlineElapses? || a.AcquireLease? || a.BeginStop?
             || a.CloseMailbox?
    ensures ParkOk(cfg, t)
  {
    match a
    case NotifyCancel(q) => NotifyCancelKeepsPark(cfg, s, q, t);
    case NotifyStop => NotifyStopKeepsPark(cfg, s, t);
    case DeadlineElapses => WakeKeepsPark(cfg, s, t);
    case AcquireLease => SameKeepsPark(cfg, s, t);
    case BeginStop => SameKeepsPark(cfg, s, t);
    case CloseMailbox => CloseKeepsPark(cfg, s, t);
  }

  lemma StepKeepsPark(cfg: Config, s: State, a: Action, t: State)
    requires Inv(cfg, s) && ParkOk(cfg, s) && Step(cfg, s, a) == Some(t)
    ensures ParkOk(cfg, t)
  {
    match a
    case Submit(refused) => SubmitKeepsPark(cfg, s, refused, t);
    case MarkCancelled(q) => MarkKeepsPark(cfg, s, q, t);
    case FinishCancel(q) => FinishCancelKeepsPark(cfg, s, q, t);
    case WorkerPushes(q) => PushKeepsPark(cfg, s, q, t);
    case TakeResult => TakeKeepsPark(cfg, s, t);
    case Drain => DrainKeepsPark(cfg, s, t);
    case Process(q) => ProcessKeepsPark(cfg, s, q, t);
    case Sweep(q, due) => SweepKeepsPark(cfg, s, q, due, t);
    case Executor => ExecutorKeepsPark(cfg, s, t);
    case Admit(due) => AdmitKeepsPark(cfg, s, due, t);
    case ReleaseLease(_) => WinnerKeepsPark(cfg, s, a, t);
    case CountKind(_) => WinnerKeepsPark(cfg, s, a, t);
    case CountTotal(_) => WinnerKeepsPark(cfg, s, a, t);
    case WorkerFinishes(_, _) => WorkerKeepsPark(cfg, s, a, t);
    case Spawn(_) => WorkerKeepsPark(cfg, s, a, t);
    case _ => NotifierKeepsPark(cfg, s, a, t);
  }

  lemma FollowsKeepsPark(cfg: Config, s: State, t: State)
    requires Inv(cfg, s) && CancellersMarked(s) && ParkOk(cfg, s) && Follows(cfg, s, t)
    ensures ParkOk(cfg, t)
  {
    var a :| Step(cfg, s, a) == Some(t);
    StepKeepsPark(cfg, s, a, t);
  }

  lemma {:induction false} RunKeepsPark(cfg: Config, run: seq<State>, i: nat)
    requires IsRun(cfg, run) && i < |run|
    ensures ParkOk(cfg, run[i])
  {
    if i > 0 {
      RunKeepsPark(cfg, run, i - 1);
      RunKeepsInv(cfg, run, i - 1);
      assert Linked(cfg, run, i);
      FollowsKeepsPark(cfg, run[i - 1], run[i]);
    }
  }

  // ---------------------------------------------------------------- main results

  /** A parked executor has nothing to do: nothing posted, nothing deliverable, nothing admissible. */
  lemma ParkedIsDone(cfg: Config, run: seq<State>, n: nat)
    requires IsRun(cfg, run) && n < |run| && run[n].pc.Parked? && !run[n].closed
    ensures forall q: nat :: q < |run[n].requests| ==>
              && !run[n].requests[q].stage.Posted? && !run[n].requests[q].stage.Drained?
              && !run[n].requests[q].stage.Launching?
    ensures HeadWaits(cfg, run[n]) && RelaxedSettled(cfg, run[n])
    ensures |run[n].input| == |run[n].requests| - run[n].popped
    ensures run[n].input == []
            || |run[n].active| + |run[n].ordered.Keys - run[n].active| + |run[n].relaxed| >= cfg.maxInFlight
  {
    RunKeepsPark(cfg, run, n);
    RunKeepsInv(cfg, run, n);
    forall q: nat | q < |run[n].requests|
      ensures !run[n].requests[q].stage.Posted? && !run[n].requests[q].stage.Drained?
      ensures !run[n].requests[q].stage.Launching?
    {
      assert StageAt(run[n], q);
    }
    AdmissionStopsWhenFull(cfg, run[n]);
  }

  /**
   A stop is never missed: while a closed stream's executor is parked, the stop has its
   notification still to give.
   */
  lemma StopIsNeverMissed(cfg: Config, run: seq<State>, n: nat)
    requires IsRun(cfg, run) && n < |run| && run[n].pc.Parked? && run[n].closed
    ensures NotifyStopStep(run[n]).Some? && NotifyStopStep(run[n]).value.pc == Draining
  {
    RunKeepsPark(cfg, run, n);
  }

  // ---------------------------------------------------------------- missed cancellations

  /** The sweep passes request `q` and sees no flag. */
  predicate PassesClean(s: State, t: State, q: nat) {
    s.pc.Sweeping? && q in s.pc.todo && t.pc == Sweeping(s.pc.todo - {q}) && !FlaggedIn(s.requests, q)
  }

  predicate SweptAt(run: seq<State>, j: nat, q: nat) {
    0 < j < |run| && PassesClean(run[j - 1], run[j], q)
  }

  /**
   From state `j` to state `n` the executor neither drains nor starts over: it is in one
   round, or parked after it.
   */
  predicate OneRound(run: seq<State>, j: nat, n: nat)
    requires n < |run|
  {
    forall i :: j <= i <= n ==> InRound(run[i].pc)
  }

  /** A cancellation of `q` sets the flag. */
  predicate MarkedAt(run: seq<State>, m: nat, q: nat) {
    0 < m < |run| && run[m].cancelling[q] > run[m - 1].cancelling[q]
  }

  /** A cancellation of `q` gives its notification. */
  predicate NotifiedAt(run: seq<State>, k: nat, q: nat) {
    0 < k < |run| && run[k].park.notifying[q] < run[k - 1].park.notifying[q]
  }

  /** A whole cancellation of `q`, flag to notification, after this round's sweep of `q` and before the park. */
  ghost predicate CancelledUnseen(run: seq<State>, n: nat, q: nat)
    requires n < |run|
  {
    exists j: nat, m: nat, k: nat ::
      && j < m < k <= n && SweptAt(run, j, q) && OneRound(run, j, n)
      && MarkedAt(run, m, q) && NotifiedAt(run, k, q) && !run[k - 1].pc.Parked?
  }

  predicate IsCaller(a: Action) {
    a.AcquireLease? || a.Submit? || a.MarkCancelled? || a.FinishCancel? || a.NotifyCancel? || a.ReleaseLease?
  }

  lemma CancelKeepsClean(cfg: Config, s: State, a: Action, t: State)
    requires Step(cfg, s, a) == Some(t) && (a.MarkCancelled? || a.FinishCancel? || a.ReleaseLease?)
    ensures t.park.clean == s.park.clean && t.pc == s.pc
  {
  }

  lemma CallersKeepClean(cfg: Config, s: State, a: Action, t: State)
    requires Step(cfg, s, a) == Some(t) && IsCaller(a)
    ensures t.park.clean == s.park.clean && (t.pc == s.pc || t.pc.Draining?)
  {
    if a.MarkCancelled? || a.FinishCancel? || a.ReleaseLease? { CancelKeepsClean(cfg, s, a, t); }
  }

  predicate IsOutsider(a: Action) {
    !IsCaller(a) && !a.Drain? && !a.Process? && !a.Sweep? && !a.Executor? && !a.Admit?
  }

  lemma OutsidersKeepClean(cfg: Config, s: State, a: Action, t: State)
    requires Step(cfg, s, a) == Some(t) && IsOutsider(a)
    ensures t.park.clean == s.park.clean && (t.pc == s.pc || t.pc.Draining?)
  {
  }

  lemma DeliveryKeepsClean(cfg: Config, s: State, t: State)
    requires ExecutorStep(cfg, s) == Some(t)
    ensures t.park.clean == s.park.clean && (InRound(t.pc) ==> InRound(s.pc) || s.pc.Processing?)
  {
  }

  lemma ProcessPrecedesRound(cfg: Config, s: State, q: nat, t: State)
    requires ProcessStep(cfg, s, q) == Some(t)
    ensures !InRound(t.pc)
  {
  }

  lemma AdmitKeepsClean(cfg: Config, s: State, due: bool, t: State)
    requires Inv(cfg, s) && AdmitStep(cfg, s, due) == Some(t)
    ensures InRound(s.pc) && t.park.clean == s.park.clean
  {
    if Admissible(cfg, s) { AdmitIsOne(cfg, s, due, t); }
  }

  lemma SweepMakesClean(cfg: Config, s: State, k: nat, due: bool, t: State, q: nat)
    requires SweepStep(cfg, s, k, due) == Some(t) && q in t.park.clean && q !in s.park.clean
    ensures PassesClean(s, t, q) && !FlaggedIn(t.requests, q)
  {
    SweepIsOne(cfg, s, k, due, t);
  }

  /** A request joins the clean ones only when the sweep passes it without a flag. */
  lemma CleanNeedsSweep(cfg: Config, s: State, a: Action, t: State, q: nat)
    requires Inv(cfg, s) && RoundOk(cfg, s) && Step(cfg, s, a) == Some(t) && InRound(t.pc) && q in t.park.clean
    ensures (InRound(s.pc) && q in s.park.clean) || (PassesClean(s, t, q) && !FlaggedIn(t.requests, q))
  {
    match a
    case Sweep(k, due) => if q !in s.park.clean { SweepMakesClean(cfg, s, k, due, t, q); }
    case Admit(due) => AdmitKeepsClean(cfg, s, due, t);
    case Drain =>
    case Process(k) => ProcessPrecedesRound(cfg, s, k, t);
    case Executor => DeliveryKeepsClean(cfg, s, t);
    case _ => if IsCaller(a) { CallersKeepClean(cfg, s, a, t); } else { OutsidersKeepClean(cfg, s, a, t); }
  }

  lemma FollowsNeedsSweep(cfg: Config, s: State, t: State, q: nat)
    requires Inv(cfg, s) && RoundOk(cfg, s) && Follows(cfg, s, t) && InRound(t.pc) && q in t.park.clean
    ensures (InRound(s.pc) && q in s.park.clean) || (PassesClean(s, t, q) && !FlaggedIn(t.requests, q))
  {
    var a :| Step(cfg, s, a) == Some(t);
    CleanNeedsSweep(cfg, s, a, t, q);
  }

  lemma CleanNeedsSweepAt(cfg: Config, run: seq<State>, n: nat, q: nat)
    requires IsRun(cfg, run) && 0 < n < |run| && InRound(run[n].pc) && q in run[n].park.clean
    ensures (InRound(run[n - 1].pc) && q in run[n - 1].park.clean)
            || (SweptAt(run, n, q) && !FlaggedIn(run[n].requests, q))
  {
    RunKeepsPark(cfg, run, n - 1);
    RunKeepsInv(cfg, run, n - 1);
    assert Linked(cfg, run, n);
    FollowsNeedsSweep(cfg, run[n - 1], run[n], q);
  }

  /** A request found clean in this round was passed by this round's sweep. */
  lemma {:induction false} CleanHasSweep(cfg: Config, run: seq<State>, n: nat, q: nat) returns (j: nat)
    requires IsRun(cfg, run) && n < |run| && InRound(run[n].pc) && q in run[n].park.clean
    ensures j <= n && SweptAt(run, j, q) && OneRound(run, j, n) && !FlaggedIn(run[j].requests, q)
  {
    CleanNeedsSweepAt(cfg, run, n, q);
    if InRound(run[n - 1].pc) && q in run[n - 1].park.clean {
      j := CleanHasSweep(cfg, run, n - 1, q);
    } else {
      j := n;
    }
  }

  /** Between an unflagged and a flagged state lies a cancellation's first step. */
  lemma {:induction false} MarkBetween(cfg: Config, run: seq<State>, j: nat, n: nat, q: nat) returns (m: nat)
    requires IsRun(cfg, run) && j <= n < |run| && !FlaggedIn(run[j].requests, q) && FlaggedIn(run[n].requests, q)
    ensures j < m <= n && MarkedAt(run, m, q)
    decreases n - j
  {
    FlagNeedsMarkAt(cfg, run, n, q);
    if FlaggedIn(run[n - 1].requests, q) {
      m := MarkBetween(cfg, run, j, n - 1, q);
    } else {
      m := n;
    }
  }

  function Pending(s: State, q: nat): nat {
    s.cancelling[q] + s.park.notifying[q]
  }

  lemma CancelMovesPending(s: State, k: nat, t: State, q: nat)
    requires MarkStep(s, k) == Some(t) || FinishCancelStep(s, k) == Some(t)
    ensures Pending(t, q) >= Pending(s, q)
  {
  }

  /** A cancellation under way ends with its notification and in no other way. */
  lemma PendingNeedsNotice(cfg: Config, s: State, a: Action, t: State, q: nat)
    requires Step(cfg, s, a) == Some(t)
    ensures Pending(t, q) >= Pending(s, q) || t.park.notifying[q] < s.park.notifying[q]
  {
    match a
    case MarkCancelled(k) => CancelMovesPending(s, k, t, q);
    case FinishCancel(k) => CancelMovesPending(s, k, t, q);
    case Process(_) => ExecutorKeepsCancelling(cfg, s, a, t);
    case Sweep(_, _) => ExecutorKeepsCancelling(cfg, s, a, t);
    case Executor => ExecutorKeepsCancelling(cfg, s, a, t);
    case Admit(due) => AdmitKeepsCancelling(cfg, s, due, t);
    case _ => OthersKeepCancelling(cfg, s, a, t);
  }

  lemma PendingNeedsNoticeAt(cfg: Config, run: seq<State>, n: nat, q: nat)
    requires IsRun(cfg, run) && 0 < n < |run|
    ensures Pending(run[n], q) >= Pending(run[n - 1], q) || NotifiedAt(run, n, q)
  {
    assert Linked(cfg, run, n);
    var a :| Step(cfg, run[n - 1], a) == Some(run[n]);
    PendingNeedsNotice(cfg, run[n - 1], a, run[n], q);
  }

  lemma {:induction false} NoticeBetween(cfg: Config, run: seq<State>, m: nat, n: nat, q: nat) returns (k: nat)
    requires IsRun(cfg, run) && m <= n < |run| && Pending(run[m], q) > 0 && Pending(run[n], q) == 0
    ensures m < k <= n && NotifiedAt(run, k, q)
    decreases n - m
  {
    PendingNeedsNoticeAt(cfg, run, n, q);
    if Pending(run[n - 1], q) > 0 {
      k := n;
    } else {
      k := NoticeBetween(cfg, run, m, n - 1, q);
    }
  }

  lemma NoticeFromStep(cfg: Config, s: State, a: Action, t: State, q: nat)
    requires Step(cfg, s, a) == Some(t) && s.pc.Parked? && t.park.notifying[q] < s.park.notifying[q]
    ensures t.pc.Draining?
  {
    match a
    case FinishCancel(_) =>
    case NotifyCancel(_) =>
    case _ =>
  }

  /** A notification that finds the executor parked starts it over. */
  lemma NoticeWakes(cfg: Config, run: seq<State>, k: nat, q: nat)
    requires IsRun(cfg, run) && NotifiedAt(run, k, q)
    ensures run[k - 1].pc.Parked? ==> run[k].pc.Draining?
  {
    assert Linked(cfg, run, k);
    var a :| Step(cfg, run[k - 1], a) == Some(run[k]);
    if run[k - 1].pc.Parked? { NoticeFromStep(cfg, run[k - 1], a, run[k], q); }
  }

  lemma FlagStays(cfg: Config, run: seq<State>, m: nat, n: nat, q: nat)
    requires IsRun(cfg, run) && m <= n < |run| && FlaggedIn(run[m].requests, q)
    ensures FlaggedIn(run[n].requests, q)
  {
    NothingGoesBack(cfg, run, m, n);
    assert AdvancesAt(run[m].requests, run[n].requests, q);
  }

  lemma MarkFlags(cfg: Config, run: seq<State>, m: nat, n: nat, q: nat)
    requires IsRun(cfg, run) && m <= n < |run| && MarkedAt(run, m, q)
    ensures FlaggedIn(run[n].requests, q)
  {
    RunKeepsInv(cfg, run, m);
    assert q in run[m].cancelling;
    FlagStays(cfg, run, m, n, q);
  }

  /** A round that has swept and delivered left an unresolved request because its sweep found no flag. */
  lemma UnresolvedWasClean(cfg: Config, run: seq<State>, n: nat, q: nat)
    requires IsRun(cfg, run) && n < |run| && cfg.strict && Unresolved(run[n], q)
    requires run[n].pc.DeliverRelaxed? || run[n].pc.DeliverStrict? || run[n].pc.Parked?
    ensures q in run[n].park.clean
  {
    RunKeepsPark(cfg, run, n);
    if q < |run[n].requests| { assert StageAt(run[n], q); }
    assert CleanAt(run[n], q);
  }

  lemma FlaggedWasUnseen(cfg: Config, run: seq<State>, n: nat, q: nat)
    requires IsRun(cfg, run) && n < |run| && cfg.strict && run[n].pc.Parked?
    requires Unresolved(run[n], q) && !PendingFor(run[n], q) && FlaggedIn(run[n].requests, q)
    ensures CancelledUnseen(run, n, q)
  {
    UnresolvedWasClean(cfg, run, n, q);
    var j := CleanHasSweep(cfg, run, n, q);
    var m := MarkBetween(cfg, run, j, n, q);
    var k := NoticeBetween(cfg, run, m, n, q);
    NoticeWakes(cfg, run, k, q);
    assert InRound(run[k].pc);
  }

  /**
   A cancellation can be missed, and exactly when: while the executor is parked and no
   cancellation of it is still under way, an unresolved active request carries the flag if and
   only if a whole cancellation of it, from the flag to the notification, came after this
   round's sweep of the request, which saw no flag, without the executor starting over.
   */
  lemma CancellationMissedIff(cfg: Config, run: seq<State>, n: nat, q: nat)
    requires IsRun(cfg, run) && n < |run| && cfg.strict && run[n].pc.Parked?
    requires Unresolved(run[n], q) && !PendingFor(run[n], q)
    ensures FlaggedIn(run[n].requests, q) <==> CancelledUnseen(run, n, q)
  {
    if FlaggedIn(run[n].requests, q) { FlaggedWasUnseen(cfg, run, n, q); }
    if CancelledUnseen(run, n, q) {
      var j: nat, m: nat, k: nat :| j < m < k <= n && SweptAt(run, j, q) && OneRound(run, j, n)
        && MarkedAt(run, m, q) && NotifiedAt(run, k, q) && !run[k - 1].pc.Parked?;
      MarkFlags(cfg, run, m, n, q);
    }
  }

  /** Such a request's worker is still out, and its completion restarts the executor. */
  lemma StallEndsWithTheWorker(cfg: Config, run: seq<State>, n: nat, q: nat)
    requires IsRun(cfg, run) && n < |run| && cfg.strict && run[n].pc.Parked? && !run[n].closed && Unresolved(run[n], q)
    ensures q < |run[n].requests| && (run[n].requests[q].stage.Running? || run[n].requests[q].stage.Finished?)
    ensures run[n].requests[q].stage.Finished? ==>
              PushStep(run[n], q).Some? && PushStep(run[n], q).value.pc == Draining
  {
    RunKeepsPark(cfg, run, n);
    RunKeepsInv(cfg, run, n);
    assert RequestAt(cfg, run[n], q) && StageAt(run[n], q);
  }

  /**
   Whatever restarts the executor ends the stall: once a request is flagged, every round that
   starts afterwards has it resolved by the time it delivers, and so by the time it parks.
   */
  lemma RestartResolves(cfg: Config, run: seq<State>, n: nat, d: nat, i: nat, q: nat)
    requires IsRun(cfg, run) && n <= d <= i < |run| && cfg.strict && FlaggedIn(run[n].requests, q)
    requires run[d].pc.Draining? && (run[i].pc.DeliverRelaxed? || run[i].pc.DeliverStrict? || run[i].pc.Parked?)
    ensures !Unresolved(run[i], q)
  {
    if Unresolved(run[i], q) {
      UnresolvedWasClean(cfg, run, i, q);
      var j := CleanHasSweep(cfg, run, i, q);
      assert InRound(run[j].pc);
      FlagStays(cfg, run, n, j, q);
      assert false;
    }
  }

  // ---------------------------------------------------------------- waking by the deadline

  /** A parked executor with an undecided active request has a deadline to wake it. */
  predicate DeadlineKept(s: State) {
    s.pc.Parked? && DeadlineAhead(s) ==> s.park.timed
  }

  lemma ExecutorParksNowhere(cfg: Config, s: State, t: State)
    requires ExecutorStep(cfg, s) == Some(t)
    ensures !t.pc.Parked?
  {
  }

  lemma PhasesParkNowhere(cfg: Config, s: State, a: Action, t: State)
    requires Step(cfg, s, a) == Some(t) && !s.pc.Parked? && (a.Drain? || a.Process? || a.Sweep?)
    ensures !t.pc.Parked?
  {
  }

  lemma OnlyAdmissionParks(cfg: Config, s: State, a: Action, t: State)
    requires Step(cfg, s, a) == Some(t) && t.pc.Parked? && !s.pc.Parked?
    ensures a.Admit?
  {
    if IsCaller(a) { CallersKeepClean(cfg, s, a, t); }
    else if a.Executor? { ExecutorParksNowhere(cfg, s, t); }
    else if a.Drain? || a.Process? || a.Sweep? { PhasesParkNowhere(cfg, s, a, t); }
    else if !a.Admit? { OutsidersKeepClean(cfg, s, a, t); }
  }

  lemma ParkedByAdmission(cfg: Config, s: State, a: Action, t: State)
    requires Step(cfg, s, a) == Some(t) && t.pc.Parked? && !s.pc.Parked?
    ensures t.park.timed == DeadlineAhead(t)
  {
    OnlyAdmissionParks(cfg, s, a, t);
    if Admissible(cfg, s) { AdmitStaysAdmitting(cfg, s, a.due, t); } else { EndingSetsTimer(cfg, s, a.due, t); }
  }

  lemma EndingSetsTimer(cfg: Config, s: State, due: bool, t: State)
    requires AdmitStep(cfg, s, due) == Some(t) && !Admissible(cfg, s)
    ensures t.park.timed == DeadlineAhead(t)
  {
    assert t.active == s.active && t.requests == s.requests;
    assert DeadlineAhead(t) == DeadlineAhead(s);
  }

  lemma AdmitStaysAdmitting(cfg: Config, s: State, due: bool, t: State)
    requires AdmitStep(cfg, s, due) == Some(t) && Admissible(cfg, s)
    ensures t.pc.Admitting?
  {
  }

  predicate SameWait(s: State, t: State) {
    t.active == s.active && t.park.timed == s.park.timed && |t.requests| == |s.requests|
  }

  lemma CancelLeavesWait(cfg: Config, s: State, a: Action, t: State)
    requires Step(cfg, s, a) == Some(t) && (a.MarkCancelled? || a.FinishCancel? || a.ReleaseLease?)
    ensures SameWait(s, t)
  {
  }

  lemma CallersLeaveWait(cfg: Config, s: State, a: Action, t: State)
    requires Step(cfg, s, a) == Some(t) && s.pc.Parked? && t.pc.Parked?
    requires a.AcquireLease? || a.Submit? || a.NotifyCancel?
    ensures SameWait(s, t)
  {
  }

  lemma WorkersLeaveWait(cfg: Config, s: State, a: Action, t: State)
    requires Step(cfg, s, a) == Some(t) && s.pc.Parked? && t.pc.Parked?
    requires a.CountKind? || a.CountTotal? || a.WorkerFinishes? || a.WorkerPushes? || a.Spawn?
    ensures SameWait(s, t)
  {
  }

  lemma OthersLeaveWait(cfg: Config, s: State, a: Action, t: State)
    requires Step(cfg, s, a) == Some(t) && s.pc.Parked? && t.pc.Parked? && !IsCaller(a)
    requires !a.CountKind? && !a.CountTotal? && !a.WorkerFinishes? && !a.WorkerPushes? && !a.Spawn?
    ensures SameWait(s, t)
  {
  }

  /** Requests only get decided while the executor waits. */
  lemma WaitKeepsDeadline(s: State, t: State)
    requires SameWait(s, t) && Advances(s, t) && s.pc.Parked? && DeadlineKept(s)
    ensures DeadlineKept(t)
  {
    if DeadlineAhead(t) {
      var q :| q in t.active && q < |t.requests| && t.requests[q].claimed.None?;
      assert AdvancesAt(s.requests, t.requests, q);
    }
  }

  lemma StepKeepsDeadline(cfg: Config, s: State, a: Action, t: State)
    requires Step(cfg, s, a) == Some(t) && DeadlineKept(s)
    ensures DeadlineKept(t)
  {
    if t.pc.Parked? && s.pc.Parked? {
      if a.MarkCancelled? || a.FinishCancel? || a.ReleaseLease? { CancelLeavesWait(cfg, s, a, t); }
      else if IsCaller(a) { CallersLeaveWait(cfg, s, a, t); }
      else if a.CountKind? || a.CountTotal? || a.WorkerFinishes? || a.WorkerPushes? || a.Spawn? {
        WorkersLeaveWait(cfg, s, a, t);
      } else {
        OthersLeaveWait(cfg, s, a, t);
      }
      StepAdvances(cfg, s, a, t);
      WaitKeepsDeadline(s, t);
    } else if t.pc.Parked? {
      ParkedByAdmission(cfg, s, a, t);
    }
  }

  lemma FollowsKeepsDeadline(cfg: Config, s: State, t: State)
    requires Follows(cfg, s, t) && DeadlineKept(s)
    ensures DeadlineKept(t)
  {
    var a :| Step(cfg, s, a) == Some(t);
    StepKeepsDeadline(cfg, s, a, t);
  }

  /** While some active request is undecided, a parked executor can be woken by a deadline. */
  lemma {:induction false} DeadlineIsNeverMissed(cfg: Config, run: seq<State>, n: nat)
    requires IsRun(cfg, run) && n < |run|
    ensures DeadlineKept(run[n])
    ensures run[n].pc.Parked? && DeadlineAhead(run[n]) ==>
              Step(cfg, run[n], DeadlineElapses).Some? && Step(cfg, run[n], DeadlineElapses).value.pc == Draining
  {
    if n > 0 {
      DeadlineIsNeverMissed(cfg, run, n - 1);
      assert Linked(cfg, run, n);
      FollowsKeepsDeadline(cfg, run[n - 1], run[n]);
    }
  }

  // ---------------------------------------------------------------- a run that misses one

  const ONE_SLOT := Config(true, 1, 1, 1, 1)
  const NEW_REQUEST := Request(Queued, false, None, true, false, false)
  const LAUNCHING := NEW_REQUEST.(stage := Launching)
  const RUNNING := NEW_REQUEST.(stage := Running)
  const FLAGGED := RUNNING.(cancelFlag := true)
  const CLAIMED := FLAGGED.(claimed := Some(Cancelled))
  const BUSY := IDLE.(progress := true, timed := true)
  const SWEPT := IDLE.(timed := true, clean := {0})

  /** A stream with one request, popped and active, in the given stage of the request and of the executor. */
  function Serving(r: Request, pc: Pc, cancelling: multiset<nat>, park: Park): State {
    State([r], [], 1, false, false, [], [], {}, {0}, map[], [], 0, pc, cancelling, park, 0, 1, NO_COUNTS)
  }

  /** A stream with one request, still queued, and the executor at `pc`. */
  function Waiting(pc: Pc): State {
    State([NEW_REQUEST], [0], 0, false, false, [], [], {}, {}, map[], [], 0, pc, multiset{}, IDLE, 0, 1, NO_COUNTS)
  }

  ghost predicate RunTo(run: seq<State>, s: State) {
    IsRun(ONE_SLOT, run) && run[|run| - 1] == s
  }

  lemma Then(run: seq<State>, s: State, a: Action, t: State) returns (longer: seq<State>)
    requires RunTo(run, s) && Step(ONE_SLOT, s, a) == Some(t)
    ensures RunTo(longer, t)
  {
    longer := run + [t];
    assert Follows(ONE_SLOT, s, t);
    forall i: nat | 0 < i < |longer| ensures Linked(ONE_SLOT, longer, i) {
      if i < |run| { assert Linked(ONE_SLOT, run, i); }
    }
  }

  lemma SubmitsOne() returns (run: seq<State>)
    ensures RunTo(run, Waiting(Draining))
  {
    var s := INITIAL.(held := 1, inFlight := 1);
    run := Then([INITIAL], INITIAL, AcquireLease, s);
    assert [] + [NEW_REQUEST] == [NEW_REQUEST] && [] + [0] == [0];
    run := Then(run, s, Submit(false), Waiting(Draining));
  }

  lemma ReachesAdmission(run: seq<State>) returns (longer: seq<State>)
    requires RunTo(run, Waiting(Draining))
    ensures RunTo(longer, Waiting(Admitting))
  {
    assert Step(ONE_SLOT, Waiting(Draining), Drain).value.requests == [NEW_REQUEST];
    longer := Then(run, Waiting(Draining), Drain, Waiting(Processing));
    longer := Then(longer, Waiting(Processing), Executor, Waiting(Sweeping({})));
    longer := Then(longer, Waiting(Sweeping({})), Executor, Waiting(DeliverRelaxed));
    longer := Then(longer, Waiting(DeliverRelaxed), Executor, Waiting(DeliverStrict));
    longer := Then(longer, Waiting(DeliverStrict), Executor, Waiting(Admitting));
  }

  lemma LaunchesOne(run: seq<State>) returns (longer: seq<State>)
    requires RunTo(run, Waiting(Admitting))
    ensures RunTo(longer, Serving(LAUNCHING, Admitting, multiset{}, IDLE.(progress := true)))
  {
    var t := Serving(LAUNCHING, Admitting, multiset{}, IDLE.(progress := true));
    assert {} + {0} == {0} && [0][1..] == [] && [NEW_REQUEST][0 := LAUNCHING] == [LAUNCHING];
    longer := Then(run, Waiting(Admitting), Admit(false), t);
  }

  /** The window is full, so admission ends. */
  lemma WindowOfOne(r: Request, park: Park, t: State)
    requires t == Serving(r, AfterAdmission(Serving(r, Admitting, multiset{}, park)), multiset{},
                          park.(timed := r.claimed.None?))
    ensures Step(ONE_SLOT, Serving(r, Admitting, multiset{}, park), Admit(false)) == Some(t)
  {
    var s := Serving(r, Admitting, multiset{}, park);
    assert |{0}| == 1;
    assert WindowFull(ONE_SLOT, s);
    assert 0 in s.active && s.requests[0] == r;
  }

  lemma EndsAdmission(run: seq<State>) returns (longer: seq<State>)
    requires RunTo(run, Serving(LAUNCHING, Admitting, multiset{}, IDLE.(progress := true)))
    ensures RunTo(longer, Serving(LAUNCHING, Spawning, multiset{}, BUSY))
  {
    WindowOfOne(LAUNCHING, IDLE.(progress := true), Serving(LAUNCHING, Spawning, multiset{}, BUSY));
    longer := Then(run, Serving(LAUNCHING, Admitting, multiset{}, IDLE.(progress := true)), Admit(false),
                   Serving(LAUNCHING, Spawning, multiset{}, BUSY));
  }

  lemma SpawnsOne(run: seq<State>) returns (longer: seq<State>)
    requires RunTo(run, Serving(LAUNCHING, Spawning, multiset{}, BUSY))
    ensures RunTo(longer, Serving(RUNNING, Draining, multiset{}, BUSY))
  {
    var spawning, none := Serving(RUNNING, Spawning, multiset{}, BUSY), multiset{};
    assert [LAUNCHING][0 := RUNNING] == [RUNNING];
    longer := Then(run, Serving(LAUNCHING, Spawning, none, BUSY), Spawn(0), spawning);
    longer := Then(longer, spawning, Executor, Serving(RUNNING, Draining, none, BUSY));
  }

  lemma SweepsClean(run: seq<State>) returns (longer: seq<State>)
    requires RunTo(run, Serving(RUNNING, Draining, multiset{}, BUSY))
    ensures RunTo(longer, Serving(RUNNING, Sweeping({}), multiset{}, SWEPT))
  {
    var s := Serving(RUNNING, Draining, multiset{}, BUSY);
    var idle := IDLE.(timed := true);
    assert {0} - {0} == {} && {} + {0} == {0};
    assert Step(ONE_SLOT, s, Drain).value.requests == [RUNNING];
    longer := Then(run, s, Drain, Serving(RUNNING, Processing, multiset{}, idle));
    longer := Then(longer, Serving(RUNNING, Processing, multiset{}, idle), Executor,
                   Serving(RUNNING, Sweeping({0}), multiset{}, idle));
    longer := Then(longer, Serving(RUNNING, Sweeping({0}), multiset{}, idle), Sweep(0, false),
                   Serving(RUNNING, Sweeping({}), multiset{}, SWEPT));
  }

  lemma CancelsTooLate(run: seq<State>) returns (longer: seq<State>)
    requires RunTo(run, Serving(RUNNING, Sweeping({}), multiset{}, SWEPT))
    ensures RunTo(longer, Serving(CLAIMED, Sweeping({}), multiset{}, SWEPT))
  {
    var flagged := Serving(FLAGGED, Sweeping({}), multiset{0}, SWEPT);
    var claimed := Serving(CLAIMED, Sweeping({}), multiset{}, SWEPT.(notifying := multiset{0}));
    assert multiset{} + multiset{0} == multiset{0} && multiset{0} - multiset{0} == multiset{};
    assert [RUNNING][0 := FLAGGED] == [FLAGGED] && [FLAGGED][0 := CLAIMED] == [CLAIMED];
    longer := Then(run, Serving(RUNNING, Sweeping({}), multiset{}, SWEPT), MarkCancelled(0), flagged);
    longer := Then(longer, flagged, FinishCancel(0), claimed);
    longer := Then(longer, claimed, NotifyCancel(0), Serving(CLAIMED, Sweeping({}), multiset{}, SWEPT));
  }

  lemma ParksAnyway(run: seq<State>) returns (longer: seq<State>)
    requires RunTo(run, Serving(CLAIMED, Sweeping({}), multiset{}, SWEPT))
    ensures RunTo(longer, Serving(CLAIMED, Parked, multiset{}, SWEPT.(timed := false)))
  {
    var r, none := CLAIMED, multiset{};
    longer := Then(run, Serving(r, Sweeping({}), none, SWEPT), Executor, Serving(r, DeliverRelaxed, none, SWEPT));
    longer := Then(longer, Serving(r, DeliverRelaxed, none, SWEPT), Executor, Serving(r, DeliverStrict, none, SWEPT));
    longer := Then(longer, Serving(r, DeliverStrict, none, SWEPT), Executor, Serving(r, Admitting, none, SWEPT));
    WindowOfOne(r, SWEPT, Serving(r, Parked, none, SWEPT.(timed := false)));
    longer := Then(longer, Serving(r, Admitting, none, SWEPT), Admit(false),
                   Serving(r, Parked, none, SWEPT.(timed := false)));
  }

  /**
   A run in which a cancelled head stalls: its cancellation falls between the sweep and the
   park, the executor parks with the head unresolved, and neither a notification nor a
   deadline is left to wake it.
   */
  lemma CancellationCanBeMissed() returns (run: seq<State>)
    ensures IsRun(ONE_SLOT, run)
    ensures var s := run[|run| - 1];
            && s.pc.Parked? && Unresolved(s, 0) && s.next == 0 && FlaggedIn(s.requests, 0)
            && !PendingFor(s, 0) && !s.park.timed
  {
    run := SubmitsOne();
    run := ReachesAdmission(run);
    run := LaunchesOne(run);
    run := EndsAdmission(run);
    run := SpawnsOne(run);
    run := SweepsClean(run);
    run := CancelsTooLate(run);
    run := ParksAnyway(run);
  }
}
