/**
 The command and completion gate between the runtime and a foreign execution domain.
 Every public operation of the driver runs under one lock, so a run of the driver is a
 sequence of operations; `Step` gives each one's effect on the locked state.
 */
module ForeignDriver {
  import opened Optional
  import opened SmallestFirst
  import opened FiniteSets

  const MAX_SEQUENCE: nat := 0xFFFF_FFFF_FFFF_FFFF

  type Reason = nat

  datatype Config = Config(
    commandCapacity: nat,
    commandByteCapacity: nat,
    completionCapacity: nat,
    completionByteCapacity: nat,
    maxInFlight: nat,
    deadline: nat,
    strict: bool)

  datatype Command = Command(sequence: nat, payload: nat, bytes: nat)
  datatype Completion = Completion(sequence: nat, payload: nat, bytes: nat)
  datatype Control = Cancel(sequence: nat) | Abort(reason: Reason) | Stop
  datatype Live = Live(deadline: nat, dispatched: bool, cancelled: bool, received: bool)

  datatype State = State(
    commands: seq<Command>,
    commandBytes: nat,
    controls: seq<Control>,
    ready: seq<Completion>,
    readyBytes: nat,
    ordered: map<nat, Completion>,
    orderedBytes: nat,
    live: map<nat, Live>,
    strictOrder: seq<nat>,
    lastStrict: Option<nat>,
    accepting: bool,
    stopping: bool,
    tokenCancelled: bool,
    abortReason: Option<Reason>,
    abortTaken: bool,
    lateTotal: nat,
    cancellationTotal: nat)

  const FRESH := State([], 0, [], [], 0, map[], 0, map[], [], None, true, false, false, None, false, 0, 0)

  datatype SubmitOutcome = Accepted | Full | Closed | Cancelled | DuplicateSequence | StrictSequenceGap
  datatype CompletionOutcome = CompletionAccepted | CompletionFull | CompletionClosed | LateDiscarded
  datatype Received = Nothing | ControlItem(control: Control) | CommandItem(command: Command)

  // ---------------------------------------------------------------- helpers on queues

  function CommandSum(commands: seq<Command>): nat {
    if commands == [] then 0 else commands[0].bytes + CommandSum(commands[1..])
  }

  function CompletionSum(items: seq<Completion>): nat {
    if items == [] then 0 else items[0].bytes + CompletionSum(items[1..])
  }

  function MapSum(items: map<nat, Completion>): nat
    decreases |items|
  {
    if items == map[] then 0
    else
      var k := Least(items.Keys);
      items[k].bytes + MapSum(items - {k})
  }

  function SequencesOf(items: seq<Completion>): set<nat> {
    set c | c in items :: c.sequence
  }

  /** Commands whose sequence is not in `gone`, in order. */
  function Retain(commands: seq<Command>, gone: set<nat>): seq<Command> {
    if commands == [] then []
    else if commands[0].sequence in gone then Retain(commands[1..], gone)
    else [commands[0]] + Retain(commands[1..], gone)
  }

  /** Removes the first occurrence. */
  function RemoveSequence(order: seq<nat>, q: nat): seq<nat> {
    if order == [] then [] else if order[0] == q then order[1..] else [order[0]] + RemoveSequence(order[1..], q)
  }

  /** Removes one occurrence of each listed sequence, smallest first. */
  function RemoveEach(order: seq<nat>, gone: set<nat>): seq<nat>
    decreases |gone|
  {
    if gone == {} then order
    else
      var q := Least(gone);
      RemoveEach(RemoveSequence(order, q), gone - {q})
  }

  function CancelsFor(sequences: set<nat>): seq<Control>
    decreases |sequences|
  {
    if sequences == {} then []
    else
      var q := Least(sequences);
      [Cancel(q)] + CancelsFor(sequences - {q})
  }

  predicate Fits(current: nat, addition: nat, capacity: nat) {
    current + addition <= capacity
  }

  function NextStrict(previous: nat): nat {
    if previous >= MAX_SEQUENCE then previous else previous + 1
  }

  // ---------------------------------------------------------------- operations on the locked state

  function SubmitRefusal(cfg: Config, s: State, q: nat): Option<SubmitOutcome> {
    if s.stopping then Some(Closed)
    else if s.tokenCancelled then Some(Cancelled)
    else if !s.accepting then Some(Closed)
    else if q in s.live then Some(DuplicateSequence)
    else if cfg.strict && s.lastStrict.Some? && q != NextStrict(s.lastStrict.value) then Some(StrictSequenceGap)
    else None
  }

  predicate RoomFor(cfg: Config, s: State, bytes: nat) {
    && |s.live| != cfg.maxInFlight && |s.commands| != cfg.commandCapacity
    && Fits(s.commandBytes, bytes, cfg.commandByteCapacity)
  }

  function SubmitResult(cfg: Config, s: State, c: Command): SubmitOutcome {
    var refusal := SubmitRefusal(cfg, s, c.sequence);
    if refusal.Some? then refusal.value else if RoomFor(cfg, s, c.bytes) then Accepted else Full
  }

  /** The strict watermark moves before the capacity check, so a Full submission is not a no-op. */
  function AfterSubmit(cfg: Config, s: State, c: Command, now: nat): State {
    if SubmitRefusal(cfg, s, c.sequence).Some? then s
    else
      var marked := if cfg.strict then s.(lastStrict := Some(c.sequence)) else s;
      if !RoomFor(cfg, s, c.bytes) then marked
      else marked.(
        commands := s.commands + [c],
        commandBytes := s.commandBytes + c.bytes,
        live := s.live[c.sequence := Live(now + cfg.deadline, false, false, false)],
        strictOrder := if cfg.strict then s.strictOrder + [c.sequence] else s.strictOrder)
  }

  function ReceiveResult(s: State): Received {
    if s.controls != [] then ControlItem(s.controls[0])
    else if s.commands != [] then CommandItem(s.commands[0])
    else Nothing
  }

  function AfterReceive(s: State): State {
    if s.controls != [] then s.(controls := s.controls[1..])
    else if s.commands == [] then s
    else
      var c := s.commands[0];
      s.(commands := s.commands[1..],
         commandBytes := if s.commandBytes >= c.bytes then s.commandBytes - c.bytes else 0,
         live := if c.sequence in s.live then s.live[c.sequence := s.live[c.sequence].(dispatched := true)] else s.live)
  }

  /** Moves the head of the strict order from the out-of-order buffer to the ready queue. */
  function Promote(s: State): State {
    if s.strictOrder == [] || s.strictOrder[0] !in s.ordered then s
    else
      var c := s.ordered[s.strictOrder[0]];
      s.(ordered := s.ordered - {s.strictOrder[0]},
         orderedBytes := if s.orderedBytes >= c.bytes then s.orderedBytes - c.bytes else 0,
         readyBytes := s.readyBytes + c.bytes,
         ready := s.ready + [c])
  }

  function Forget(s: State, q: nat): State {
    s.(live := s.live - {q}, strictOrder := RemoveSequence(s.strictOrder, q))
  }

  function Undispatched(live: map<nat, Live>): set<nat> {
    set q | q in live && !live[q].dispatched
  }

  function ToCancel(live: map<nat, Live>): set<nat> {
    set q | q in live && live[q].dispatched && !live[q].cancelled
  }

  function FirstReason(s: State, reason: Reason): Reason {
    if s.abortReason.Some? then s.abortReason.value else reason
  }

  /** Terminal failure: the first reason wins, undispatched calls vanish, dispatched ones are told to cancel. */
  function AfterFail(s: State, reason: Reason): State {
    var gone := Undispatched(s.live);
    var why := FirstReason(s, reason);
    var kept := Retain(s.commands, gone);
    s.(accepting := false, stopping := true, tokenCancelled := true, abortReason := Some(why),
       commands := kept, commandBytes := CommandSum(kept),
       live := map q | q in s.live && s.live[q].dispatched :: s.live[q].(cancelled := true),
       strictOrder := RemoveEach(s.strictOrder, gone),
       controls := s.controls + CancelsFor(ToCancel(s.live)) + [Abort(why), Stop],
       cancellationTotal := s.cancellationTotal + |ToCancel(s.live)|,
       ready := [], readyBytes := 0, ordered := map[], orderedBytes := 0)
  }

  predicate Late(s: State, q: nat)
    requires q in s.live
  {
    s.live[q].cancelled || s.stopping || s.tokenCancelled
  }

  predicate CompletionRoom(cfg: Config, s: State, bytes: nat) {
    && |s.ready| + |s.ordered| != cfg.completionCapacity
    && Fits(s.readyBytes + s.orderedBytes, bytes, cfg.completionByteCapacity)
  }

  function CompleteResult(cfg: Config, s: State, c: Completion, failure: Option<Reason>): CompletionOutcome {
    if c.sequence !in s.live then (if s.stopping then CompletionClosed else LateDiscarded)
    else if Late(s, c.sequence) || s.live[c.sequence].received then LateDiscarded
    else if failure.Some? then CompletionAccepted
    else if CompletionRoom(cfg, s, c.bytes) then CompletionAccepted
    else CompletionFull
  }

  /** A completion that must wait for its turn in the strict order. */
  function Stored(s: State, c: Completion): State
    requires c.sequence in s.live
  {
    s.(live := s.live[c.sequence := s.live[c.sequence].(received := true)],
       ordered := s.ordered[c.sequence := c], orderedBytes := s.orderedBytes + c.bytes)
  }

  function Buffer(cfg: Config, s: State, c: Completion): State
    requires c.sequence in s.live
  {
    if cfg.strict then Promote(Stored(s, c))
    else s.(live := s.live[c.sequence := s.live[c.sequence].(received := true)], ready := s.ready + [c],
            readyBytes := s.readyBytes + c.bytes)
  }

  function AfterComplete(cfg: Config, s: State, c: Completion, failure: Option<Reason>): State {
    var q := c.sequence;
    if q !in s.live then (if s.stopping then s else s.(lateTotal := s.lateTotal + 1))
    else if Late(s, q) then Forget(s, q).(lateTotal := s.lateTotal + 1)
    else if s.live[q].received then s.(lateTotal := s.lateTotal + 1)
    else if failure.Some? then AfterFail(Forget(s, q), failure.value)
    else if CompletionRoom(cfg, s, c.bytes) then Buffer(cfg, s, c)
    else s
  }

  /** Without the ready head, whose call is over. */
  function Popped(s: State): State
    requires s.ready != []
  {
    var c := s.ready[0];
    Forget(s.(ready := s.ready[1..], readyBytes := if s.readyBytes >= c.bytes then s.readyBytes - c.bytes else 0),
           c.sequence)
  }

  function AfterTake(cfg: Config, s: State): State {
    if s.ready == [] then s
    else if cfg.strict then Promote(Popped(s))
    else Popped(s)
  }

  function Expired(s: State, now: nat): set<nat> {
    set q | q in s.live && s.live[q].deadline <= now
  }

  const DEADLINE_REASON: Reason := 0

  function AfterExpire(s: State, now: nat): State {
    if Expired(s, now) == {} then s
    else
      var failed := AfterFail(s, DEADLINE_REASON);
      failed.(cancellationTotal := failed.cancellationTotal + |Expired(s, now)|)
  }

  predicate GracefulAllowed(s: State) {
    !s.stopping && s.live == map[]
  }

  function AfterGraceful(s: State): State {
    if !GracefulAllowed(s) then s
    else s.(accepting := false, stopping := true, tokenCancelled := true, controls := s.controls + [Stop])
  }

  function AfterTakeReason(s: State): State {
    if s.abortTaken || s.abortReason.None? then s else s.(abortTaken := true)
  }

  predicate CancelPending(s: State, q: nat) {
    q in s.live && s.live[q].cancelled
  }

  function AfterAcknowledge(s: State, q: nat): State {
    if CancelPending(s, q) then Forget(s, q) else s
  }

  datatype Operation =
    | Submit(command: Command, now: nat)
    | Receive
    | Complete(completion: Completion, failure: Option<Reason>)
    | Take
    | Expire(now: nat)
    | BeginStop(reason: Reason)
    | BeginGracefulStop
    | TakeReason
    | Acknowledge(sequence: nat)

  function Step(cfg: Config, s: State, op: Operation): State {
    match op
    case Submit(c, now) => AfterSubmit(cfg, s, c, now)
    case Receive => AfterReceive(s)
    case Complete(c, failure) => AfterComplete(cfg, s, c, failure)
    case Take => AfterTake(cfg, s)
    case Expire(now) => AfterExpire(s, now)
    case BeginStop(reason) => if s.stopping then s else AfterFail(s, reason)
    case BeginGracefulStop => AfterGraceful(s)
    case TakeReason => AfterTakeReason(s)
    case Acknowledge(q) => AfterAcknowledge(s, q)
  }

  // ---------------------------------------------------------------- the invariant

  ghost predicate DistinctItems(items: seq<Completion>) {
    forall i, j :: 0 <= i < j < |items| ==> items[i].sequence != items[j].sequence
  }

  /** Bounds and exact byte accounts. */
  ghost predicate Bounded(cfg: Config, s: State) {
    && |s.live| <= cfg.maxInFlight && |s.commands| <= cfg.commandCapacity
    && s.commandBytes == CommandSum(s.commands) <= cfg.commandByteCapacity
    && |s.ready| + |s.ordered| <= cfg.completionCapacity
    && s.readyBytes == CompletionSum(s.ready) && s.orderedBytes == MapSum(s.ordered)
    && s.readyBytes + s.orderedBytes <= cfg.completionByteCapacity
  }

  /** Completions are buffered for live calls only, each at most once, marked as received. */
  ghost predicate Buffered(s: State) {
    && DistinctItems(s.ready)
    && (forall q :: q in s.ordered ==> s.ordered[q].sequence == q)
    && (forall q :: q in s.ordered ==> q in s.live && q !in SequencesOf(s.ready))
    && (forall q :: q in SequencesOf(s.ready) ==> q in s.live)
    && (!s.stopping ==> forall q :: q in s.live ==>
        (s.live[q].received <==> q in s.ordered || q in SequencesOf(s.ready)))
  }

  /** The strict order lists the live calls; the ready queue holds at most its head. */
  ghost predicate StrictOk(cfg: Config, s: State) {
    && Distinct(s.strictOrder)
    && (forall q :: q in s.strictOrder <==> cfg.strict && q in s.live)
    && (cfg.strict ==> |s.ready| <= 1)
    && (cfg.strict && s.ready != [] ==> s.strictOrder != [] && s.ready[0].sequence == s.strictOrder[0])
    && (cfg.strict && s.ready == [] && s.strictOrder != [] ==> s.strictOrder[0] !in s.ordered)
    && (!cfg.strict ==> s.ordered == map[])
  }

  ghost predicate StopOk(s: State) {
    && (s.stopping <==> s.tokenCancelled) && (s.stopping <==> !s.accepting)
    && (s.abortReason.Some? ==> s.stopping) && (s.abortTaken ==> s.abortReason.Some?)
    && (s.stopping ==> s.ready == [] && s.ordered == map[])
    && (s.stopping ==> forall q :: q in s.live ==> s.live[q].dispatched && s.live[q].cancelled)
    && (s.stopping && s.live != map[] ==> s.abortReason.Some?)
    && (!s.stopping ==> s.controls == [] && forall q :: q in s.live ==> !s.live[q].cancelled)
  }

  ghost predicate Inv(cfg: Config, s: State) {
    Bounded(cfg, s) && Buffered(s) && StrictOk(cfg, s) && StopOk(s)
  }

  // ---------------------------------------------------------------- lemmas about the helpers

  lemma {:induction false} MapSumRemove(items: map<nat, Completion>, k: nat)
    requires k in items
    ensures MapSum(items) == items[k].bytes + MapSum(items - {k})
    decreases |items|
  {
    var m := Least(items.Keys);
    if m != k {
      assert k in items - {m};
      MapSumRemove(items - {m}, k);
      assert items - {m} - {k} == items - {k} - {m};
      var rest := items - {k};
      assert m in rest && Least(rest.Keys) == m;
    }
  }

  lemma MapSumInsert(items: map<nat, Completion>, c: Completion)
    requires c.sequence !in items
    ensures MapSum(items[c.sequence := c]) == MapSum(items) + c.bytes
  {
    MapSumRemove(items[c.sequence := c], c.sequence);
    assert items[c.sequence := c] - {c.sequence} == items;
  }

  lemma {:induction false} CompletionSumAppend(items: seq<Completion>, c: Completion)
    ensures CompletionSum(items + [c]) == CompletionSum(items) + c.bytes
  {
    if items != [] {
      assert (items + [c])[1..] == items[1..] + [c];
      CompletionSumAppend(items[1..], c);
    }
  }

  lemma {:induction false} CommandSumAppend(commands: seq<Command>, c: Command)
    ensures CommandSum(commands + [c]) == CommandSum(commands) + c.bytes
  {
    if commands != [] {
      assert (commands + [c])[1..] == commands[1..] + [c];
      CommandSumAppend(commands[1..], c);
    }
  }

  lemma {:induction false} RetainShrinks(commands: seq<Command>, gone: set<nat>)
    ensures |Retain(commands, gone)| <= |commands| && CommandSum(Retain(commands, gone)) <= CommandSum(commands)
    ensures forall c :: c in Retain(commands, gone) <==> c in commands && c.sequence !in gone
  {
    if commands != [] {
      RetainShrinks(commands[1..], gone);
    }
  }

  lemma {:induction false} RemoveKeeps(order: seq<nat>, q: nat)
    requires Distinct(order)
    ensures Distinct(RemoveSequence(order, q))
    ensures forall r :: r in RemoveSequence(order, q) <==> r in order && r != q
    ensures order != [] && order[0] == q ==> RemoveSequence(order, q) == order[1..]
  {
    if order != [] && order[0] != q {
      RemoveKeeps(order[1..], q);
      assert order[0] !in order[1..];
    }
  }

  lemma {:induction false} RemoveEachKeeps(order: seq<nat>, gone: set<nat>)
    requires Distinct(order)
    ensures Distinct(RemoveEach(order, gone))
    ensures forall q :: q in RemoveEach(order, gone) <==> q in order && q !in gone
    decreases |gone|
  {
    if gone != {} {
      var q := Least(gone);
      RemoveKeeps(order, q);
      RemoveEachKeeps(RemoveSequence(order, q), gone - {q});
    }
  }

  // ---------------------------------------------------------------- every operation keeps the invariant

  lemma AcceptKeepsBounds(cfg: Config, s: State, c: Command, now: nat)
    requires Bounded(cfg, s) && SubmitResult(cfg, s, c) == Accepted
    ensures Bounded(cfg, AfterSubmit(cfg, s, c, now))
  {
    CommandSumAppend(s.commands, c);
    var live := AfterSubmit(cfg, s, c, now).live;
    assert |live| == |live.Keys| && live.Keys == s.live.Keys + {c.sequence};
  }

  lemma AcceptKeepsBuffers(cfg: Config, s: State, c: Command, now: nat)
    requires Buffered(s) && SubmitResult(cfg, s, c) == Accepted
    ensures Buffered(AfterSubmit(cfg, s, c, now))
  {
  }

  lemma AcceptKeepsStrict(cfg: Config, s: State, c: Command, now: nat)
    requires cfg.strict && StrictOk(cfg, s) && Buffered(s) && SubmitResult(cfg, s, c) == Accepted
    ensures StrictOk(cfg, AfterSubmit(cfg, s, c, now))
  {
    assert c.sequence !in s.strictOrder && c.sequence !in s.ordered;
    assert s.ready != [] ==> s.strictOrder != [];
    assert (s.strictOrder + [c.sequence])[0] == if s.strictOrder == [] then c.sequence else s.strictOrder[0];
  }

  lemma SubmitKeeps(cfg: Config, s: State, c: Command, now: nat)
    requires Inv(cfg, s)
    ensures Inv(cfg, AfterSubmit(cfg, s, c, now))
  {
    if SubmitResult(cfg, s, c) == Accepted {
      AcceptKeepsBounds(cfg, s, c, now);
      AcceptKeepsBuffers(cfg, s, c, now);
      if cfg.strict { AcceptKeepsStrict(cfg, s, c, now); }
    }
  }

  lemma ReceiveKeeps(cfg: Config, s: State)
    requires Inv(cfg, s)
    ensures Inv(cfg, AfterReceive(s))
  {
    if s.controls == [] && s.commands != [] && s.commands[0].sequence in s.live {
      var t := AfterReceive(s);
      assert t.live.Keys == s.live.Keys;
      assert |t.live| == |t.live.Keys| == |s.live|;
    }
  }

  lemma SequencesAppend(items: seq<Completion>, c: Completion)
    ensures SequencesOf(items + [c]) == SequencesOf(items) + {c.sequence}
  {
    assert forall x :: x in items ==> x in items + [c];
    assert c in items + [c];
  }

  /** Promotion restores the strict head condition that buffering or taking a completion disturbs. */
  lemma PromoteKeeps(cfg: Config, s: State)
    requires Bounded(cfg, s) && Buffered(s) && StopOk(s) && cfg.strict && !s.stopping
    requires Distinct(s.strictOrder) && forall q :: q in s.strictOrder <==> q in s.live
    requires |s.ready| <= 1 && (s.ready != [] ==> s.strictOrder != [] && s.ready[0].sequence == s.strictOrder[0])
    ensures Inv(cfg, Promote(s))
  {
    assert s.ready != [] ==> s.ready[0] in s.ready && s.ready[0].sequence in SequencesOf(s.ready);
    if s.strictOrder != [] && s.strictOrder[0] in s.ordered {
      var q := s.strictOrder[0];
      MapSumRemove(s.ordered, q);
      CompletionSumAppend(s.ready, s.ordered[q]);
      SequencesAppend(s.ready, s.ordered[q]);
      assert |s.ordered - {q}| == |s.ordered| - 1 by { assert (s.ordered - {q}).Keys == s.ordered.Keys - {q}; }
    }
  }

  lemma ForgetKeepsOrder(cfg: Config, s: State, q: nat)
    requires StrictOk(cfg, s)
    ensures var t := Forget(s, q);
            && Distinct(t.strictOrder) && (forall r :: r in t.strictOrder <==> cfg.strict && r in t.live)
            && |t.live| <= |s.live|
  {
    RemoveKeeps(s.strictOrder, q);
    assert (s.live - {q}).Keys == s.live.Keys - {q};
    assert |s.live - {q}| == |(s.live - {q}).Keys|;
  }

  /** Dropping a call after stop, or one whose completion is not buffered. */
  lemma ForgetKeeps(cfg: Config, s: State, q: nat)
    requires Inv(cfg, s) && s.stopping
    ensures Inv(cfg, Forget(s, q))
  {
    ForgetKeepsOrder(cfg, s, q);
  }

  lemma FailKeeps(cfg: Config, s: State, reason: Reason)
    requires |s.live| <= cfg.maxInFlight && |s.commands| <= cfg.commandCapacity
    requires s.commandBytes == CommandSum(s.commands) <= cfg.commandByteCapacity
    requires Distinct(s.strictOrder) && forall q :: q in s.strictOrder <==> cfg.strict && q in s.live
    requires s.abortTaken ==> s.abortReason.Some?
    ensures Inv(cfg, AfterFail(s, reason))
  {
    var t := AfterFail(s, reason);
    RetainShrinks(s.commands, Undispatched(s.live));
    RemoveEachKeeps(s.strictOrder, Undispatched(s.live));
    assert t.live.Keys <= s.live.Keys;
    assert |t.live| == |t.live.Keys|;
    SubsetSize(t.live.Keys, s.live.Keys);
  }

  predicate Bufferable(cfg: Config, s: State, c: Completion) {
    c.sequence in s.live && !s.stopping && !s.live[c.sequence].received && CompletionRoom(cfg, s, c.bytes)
  }

  lemma BufferReadyKeeps(cfg: Config, s: State, c: Completion)
    requires Inv(cfg, s) && Bufferable(cfg, s, c) && !cfg.strict
    ensures Inv(cfg, Buffer(cfg, s, c))
  {
    var live := s.live[c.sequence := s.live[c.sequence].(received := true)];
    assert live.Keys == s.live.Keys && |live| == |live.Keys|;
    CompletionSumAppend(s.ready, c);
    SequencesAppend(s.ready, c);
    assert forall i :: 0 <= i < |s.ready| ==> s.ready[i] in s.ready && s.ready[i].sequence in SequencesOf(s.ready);
  }

  lemma InsertSize<V>(m: map<nat, V>, k: nat, v: V)
    ensures |m[k := v]| == |m| + (if k in m then 0 else 1)
  {
    assert m[k := v].Keys == m.Keys + {k} && |m[k := v]| == |m[k := v].Keys| && |m| == |m.Keys|;
  }

  lemma StoredBounds(cfg: Config, s: State, c: Completion)
    requires Bounded(cfg, s) && Buffered(s) && Bufferable(cfg, s, c)
    ensures Bounded(cfg, Stored(s, c))
  {
    MapSumInsert(s.ordered, c);
    InsertSize(s.ordered, c.sequence, c);
    InsertSize(s.live, c.sequence, s.live[c.sequence].(received := true));
  }

  lemma StoredBuffers(cfg: Config, s: State, c: Completion)
    requires Buffered(s) && Bufferable(cfg, s, c)
    ensures Buffered(Stored(s, c))
  {
  }

  lemma BufferKeeps(cfg: Config, s: State, c: Completion)
    requires Inv(cfg, s) && Bufferable(cfg, s, c)
    ensures Inv(cfg, Buffer(cfg, s, c))
  {
    if cfg.strict {
      StoredBounds(cfg, s, c);
      StoredBuffers(cfg, s, c);
      assert Stored(s, c).live.Keys == s.live.Keys;
      PromoteKeeps(cfg, Stored(s, c));
    } else {
      BufferReadyKeeps(cfg, s, c);
    }
  }

  lemma CompleteKeeps(cfg: Config, s: State, c: Completion, failure: Option<Reason>)
    requires Inv(cfg, s)
    ensures Inv(cfg, AfterComplete(cfg, s, c, failure))
  {
    var q := c.sequence;
    if q in s.live {
      if Late(s, q) {
        ForgetKeeps(cfg, s, q);
      } else if s.live[q].received {
      } else if failure.Some? {
        ForgetKeepsOrder(cfg, s, q);
        FailKeeps(cfg, Forget(s, q), failure.value);
      } else if CompletionRoom(cfg, s, c.bytes) {
        BufferKeeps(cfg, s, c);
      }
    }
  }

  lemma PoppedBounds(cfg: Config, s: State)
    requires Bounded(cfg, s) && StrictOk(cfg, s) && s.ready != []
    ensures Bounded(cfg, Popped(s))
  {
    ForgetKeepsOrder(cfg, s, s.ready[0].sequence);
  }

  lemma PoppedBuffers(s: State)
    requires Buffered(s) && StopOk(s) && s.ready != []
    ensures Buffered(Popped(s)) && StopOk(Popped(s))
  {
  }

  lemma PoppedKeeps(cfg: Config, s: State)
    requires Inv(cfg, s) && s.ready != []
    ensures Bounded(cfg, Popped(s)) && Buffered(Popped(s)) && StopOk(Popped(s))
  {
    PoppedBounds(cfg, s);
    PoppedBuffers(s);
  }

  lemma TakeKeeps(cfg: Config, s: State)
    requires Inv(cfg, s)
    ensures Inv(cfg, AfterTake(cfg, s))
  {
    if s.ready != [] {
      PoppedKeeps(cfg, s);
      ForgetKeepsOrder(cfg, s, s.ready[0].sequence);
      if cfg.strict {
        PromoteKeeps(cfg, Popped(s));
      }
    }
  }

  lemma GracefulKeeps(cfg: Config, s: State)
    requires Inv(cfg, s)
    ensures Inv(cfg, AfterGraceful(s))
  {
    if GracefulAllowed(s) {
      assert s.ready != [] ==> s.ready[0].sequence in SequencesOf(s.ready);
      assert s.ordered == map[] by { assert s.ordered.Keys == {}; }
    }
  }

  lemma AcknowledgeKeeps(cfg: Config, s: State, q: nat)
    requires Inv(cfg, s)
    ensures Inv(cfg, AfterAcknowledge(s, q))
  {
    if CancelPending(s, q) {
      ForgetKeeps(cfg, s, q);
    }
  }

  lemma ExpireKeeps(cfg: Config, s: State, now: nat)
    requires Inv(cfg, s)
    ensures Inv(cfg, AfterExpire(s, now))
  {
    if Expired(s, now) != {} {
      FailKeeps(cfg, s, DEADLINE_REASON);
    }
  }

  lemma StepKeeps(cfg: Config, s: State, op: Operation)
    requires Inv(cfg, s)
    ensures Inv(cfg, Step(cfg, s, op))
  {
    match op
    case Submit(c, now) => SubmitKeeps(cfg, s, c, now);
    case Receive => ReceiveKeeps(cfg, s);
    case Complete(c, failure) => CompleteKeeps(cfg, s, c, failure);
    case Take => TakeKeeps(cfg, s);
    case Expire(now) => ExpireKeeps(cfg, s, now);
    case BeginStop(reason) => FailKeeps(cfg, s, reason);
    case BeginGracefulStop => GracefulKeeps(cfg, s);
    case TakeReason =>
    case Acknowledge(q) => AcknowledgeKeeps(cfg, s, q);
  }
}
