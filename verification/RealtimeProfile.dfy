/** Declarative realtime input profiles and their validation. Durations are whole nanoseconds. */
module RealtimeProfile {
  import opened Optional

  datatype DeliveryGuarantee = Lossless | BestEffort
  datatype Ordering = Strict | Relaxed
  datatype OverflowPolicy = PropagateBackpressure | DropOldest | DropNewest | DropSilenceFirst | AbortSession
  datatype Range = Range(min: nat, max: nat)

  datatype Contract = Contract(
    latencyBudget: nat,
    guarantee: DeliveryGuarantee,
    permitsAudio: bool,
    acceptedAudio: Option<Range>,
    ordering: Ordering,
    upstreamCanPause: bool,
    permitsSilenceDrop: bool)

  datatype Tuning = Tuning(
    maxFrames: nat,
    maxBytes: nat,
    maxMedia: nat,
    targetMerge: Option<nat>,
    maxMerge: Option<nat>,
    maxInFlight: nat,
    deadline: nat,
    overflow: OverflowPolicy)

  datatype Profile = Profile(contract: Contract, tuning: Tuning)

  datatype ProfileError =
    | ZeroLatencyBudget | LatencyBudgetUnbounded
    | AudioRangeRequired | AudioRangeForbidden | InvalidAudioRange
    | ZeroCapacity | CapacityUnbounded
    | ZeroMediaDurationLimit | MediaDurationLimitUnbounded
    | MergeDurationRequired | MergeDurationForbidden | InvalidMergeDuration
    | ZeroDeadline | DeadlineUnbounded | DeadlineExceedsLatencyBudget
    | LosslessDrop | StrictOrderingDrop | SilenceDropNotPermitted | UnpausableBackpressureOnly

  const MAX_DURATION: nat := 3_600_000_000_000
  const MAX_FRAMES: nat := 1_000_000
  const MAX_BYTES: nat := 1_099_511_627_776

  predicate DropsFrames(policy: OverflowPolicy) {
    policy.DropOldest? || policy.DropNewest? || policy.DropSilenceFirst?
  }

  function AudioFault(c: Contract): Option<ProfileError> {
    if c.permitsAudio && c.acceptedAudio.None? then Some(AudioRangeRequired)
    else if !c.permitsAudio && c.acceptedAudio.Some? then Some(AudioRangeForbidden)
    else if c.permitsAudio && (c.acceptedAudio.value.min == 0 || c.acceptedAudio.value.max == 0
                               || c.acceptedAudio.value.min > c.acceptedAudio.value.max)
    then Some(InvalidAudioRange)
    else None
  }

  function CapacityFault(t: Tuning): Option<ProfileError> {
    if t.maxFrames == 0 || t.maxBytes == 0 || t.maxInFlight == 0 then Some(ZeroCapacity)
    else if t.maxFrames > MAX_FRAMES || t.maxBytes > MAX_BYTES || t.maxInFlight > t.maxFrames then
      Some(CapacityUnbounded)
    else if t.maxMedia == 0 then Some(ZeroMediaDurationLimit)
    else if t.maxMedia > MAX_DURATION then Some(MediaDurationLimitUnbounded)
    else None
  }

  function MergeFault(c: Contract, t: Tuning): Option<ProfileError> {
    if !c.permitsAudio then (if t.targetMerge.None? && t.maxMerge.None? then None else Some(MergeDurationForbidden))
    else if t.targetMerge.None? || t.maxMerge.None? then Some(MergeDurationRequired)
    else if c.acceptedAudio.None? then Some(AudioRangeRequired)
    else
      var target, maximum, range := t.targetMerge.value, t.maxMerge.value, c.acceptedAudio.value;
      if target == 0 || maximum == 0 || target > maximum || target < range.min || maximum > range.max
        || maximum > t.maxMedia
      then Some(InvalidMergeDuration) else None
  }

  function DeadlineFault(c: Contract, t: Tuning): Option<ProfileError> {
    if t.deadline == 0 then Some(ZeroDeadline)
    else if t.deadline > MAX_DURATION then Some(DeadlineUnbounded)
    else if t.deadline > c.latencyBudget then Some(DeadlineExceedsLatencyBudget)
    else None
  }

  function OverflowFault(c: Contract, t: Tuning): Option<ProfileError> {
    if c.guarantee == Lossless && DropsFrames(t.overflow) then Some(LosslessDrop)
    else if c.ordering == Strict && DropsFrames(t.overflow) then Some(StrictOrderingDrop)
    else if t.overflow == DropSilenceFirst && (c.guarantee != BestEffort || !c.permitsAudio || !c.permitsSilenceDrop)
    then Some(SilenceDropNotPermitted)
    else if !c.upstreamCanPause && t.overflow == PropagateBackpressure then Some(UnpausableBackpressureOnly)
    else None
  }

  /** The first fault in the order of the checks, or none for a valid profile. */
  function Validate(p: Profile): Option<ProfileError> {
    var c, t := p.contract, p.tuning;
    if c.latencyBudget == 0 then Some(ZeroLatencyBudget)
    else if c.latencyBudget > MAX_DURATION then Some(LatencyBudgetUnbounded)
    else if AudioFault(c).Some? then AudioFault(c)
    else if CapacityFault(t).Some? then CapacityFault(t)
    else if MergeFault(c, t).Some? then MergeFault(c, t)
    else if DeadlineFault(c, t).Some? then DeadlineFault(c, t)
    else OverflowFault(c, t)
  }

  datatype Vad = Silence | Speech
  datatype Decision = Backpressure | OldestDropped | NewestDropped | SilenceDropped | Aborted

  /** Silence is droppable only from a trusted observation. */
  function DecideOverflow(p: Profile, vad: Option<Vad>): Decision {
    match p.tuning.overflow
    case PropagateBackpressure => Backpressure
    case DropOldest => OldestDropped
    case DropNewest => NewestDropped
    case DropSilenceFirst =>
      if vad == Some(Silence) then SilenceDropped
      else if p.contract.upstreamCanPause then Backpressure
      else Aborted
    case AbortSession => Aborted
  }

  predicate LosesFrames(d: Decision) {
    d.OldestDropped? || d.NewestDropped? || d.SilenceDropped?
  }

  /** What a valid profile allows the overflow decision to be, whatever the voice detector says. */
  lemma ValidDecisionIsPermitted(p: Profile, vad: Option<Vad>)
    requires Validate(p).None?
    ensures LosesFrames(DecideOverflow(p, vad)) ==> p.contract.guarantee == BestEffort && p.contract.ordering == Relaxed
    ensures DecideOverflow(p, vad) == Backpressure ==> p.contract.upstreamCanPause
    ensures DecideOverflow(p, vad) == SilenceDropped ==>
              vad == Some(Silence) && p.contract.permitsAudio && p.contract.permitsSilenceDrop
  {
  }

  /** A valid profile keeps every limit positive and bounded and its merge window inside both limits. */
  lemma ValidProfileIsBounded(p: Profile)
    requires Validate(p).None?
    ensures 0 < p.tuning.deadline <= p.contract.latencyBudget <= MAX_DURATION
    ensures 0 < p.tuning.maxInFlight <= p.tuning.maxFrames <= MAX_FRAMES && 0 < p.tuning.maxBytes <= MAX_BYTES
    ensures p.tuning.maxMerge.Some? <==> p.contract.permitsAudio
    ensures p.tuning.maxMerge.Some? ==>
              p.contract.acceptedAudio.Some? && p.tuning.targetMerge.Some?
              && p.contract.acceptedAudio.value.min <= p.tuning.targetMerge.value <= p.tuning.maxMerge.value
                 <= p.contract.acceptedAudio.value.max
              && 0 < p.tuning.targetMerge.value && p.tuning.maxMerge.value <= p.tuning.maxMedia <= MAX_DURATION
  {
  }

  predicate Between(low: nat, x: nat, high: nat) {
    low <= x <= high
  }

  /** Audio durations are given exactly where audio is permitted, each within the next wider bound. */
  predicate AudioFits(c: Contract, t: Tuning) {
    if !c.permitsAudio then c.acceptedAudio.None? && t.targetMerge.None? && t.maxMerge.None?
    else
      && c.acceptedAudio.Some? && t.targetMerge.Some? && t.maxMerge.Some?
      && 0 < c.acceptedAudio.value.min <= t.targetMerge.value <= t.maxMerge.value <= c.acceptedAudio.value.max
      && t.maxMerge.value <= t.maxMedia
  }

  /** Whoever must not lose frames, or their order, has a policy that does not drop, and some policy can be obeyed. */
  predicate OverflowFits(c: Contract, t: Tuning) {
    && (DropsFrames(t.overflow) ==> c.guarantee.BestEffort? && c.ordering.Relaxed?)
    && (t.overflow.DropSilenceFirst? ==> c.permitsAudio && c.permitsSilenceDrop)
    && (t.overflow.PropagateBackpressure? ==> c.upstreamCanPause)
  }

  /** A profile is valid exactly if all of its limits are. */
  lemma ValidIff(p: Profile)
    ensures Validate(p).None? <==>
            var c, t := p.contract, p.tuning;
            && Between(1, c.latencyBudget, MAX_DURATION) && Between(1, t.maxFrames, MAX_FRAMES)
            && Between(1, t.maxBytes, MAX_BYTES) && Between(1, t.maxInFlight, t.maxFrames)
            && Between(1, t.maxMedia, MAX_DURATION) && Between(1, t.deadline, c.latencyBudget)
            && AudioFits(c, t) && OverflowFits(c, t)
  {
  }
}
