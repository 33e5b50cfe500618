/** Coalescing a compatible prefix of audio frames before admission. */
module AudioMerge {
  import opened Optional
  import opened Division
  import opened AudioTiming

  /** Everything of a frame that merging looks at; `format` is channel count, sample format and layout. */
  datatype Frame =
    | Audio(stream: nat, trace: nat, clock: nat, sequence: U64, timestamp: I64, rate: Rate, format: nat, samples: U64)
    | Other

  datatype MergeError = InvalidDurations | Arithmetic
  datatype Result<+T> = Ok(value: T) | Err(error: MergeError)

  const MAX_PREFIX: nat := 1024

  // ---------------------------------------------------------------- what a merge is

  /** Samples per channel of the first k frames. */
  function Total(frames: seq<Frame>, k: nat): nat
    requires k <= |frames|
  {
    if k == 0 then 0 else Total(frames, k - 1) + (if frames[k - 1].Audio? then frames[k - 1].samples else 0)
  }

  /** Exact duration of the first k frames at the first frame's rate. */
  function Dur(frames: seq<Frame>, k: nat): nat
    requires k <= |frames| && frames != [] && frames[0].Audio?
  {
    Exact(Total(frames, k), frames[0].rate)
  }

  predicate Compatible(previous: Frame, next: Frame, expected: int) {
    && previous.Audio? && next.Audio?
    && previous.stream == next.stream && previous.trace == next.trace && previous.clock == next.clock
    && previous.sequence < U64_MAX && previous.sequence + 1 == next.sequence
    && next.timestamp == expected
    && previous.rate == next.rate && previous.format == next.format
  }

  /** Frame i continues frame i-1 and starts exactly where the exact running total says. */
  predicate Continues(frames: seq<Frame>, i: nat)
    requires 0 < i < |frames| && frames[0].Audio?
  {
    Compatible(frames[i - 1], frames[i], frames[0].timestamp + Dur(frames, i))
  }

  predicate Chain(frames: seq<Frame>, k: nat) {
    && k <= |frames| && frames != [] && frames[0].Audio?
    && (forall i :: 0 <= i < k ==> frames[i].Audio?)
    && forall i :: 0 < i < k ==> Continues(frames, i)
  }

  /** The shortest drift-free prefix that reaches the target, and does not pass the maximum. */
  predicate IsMerge(frames: seq<Frame>, target: nat, maximum: nat, k: nat) {
    2 <= k <= MAX_PREFIX && Chain(frames, k) && Dur(frames, k - 1) < target <= Dur(frames, k) <= maximum
  }

  predicate Reached(frames: seq<Frame>, target: nat, j: nat) {
    Chain(frames, j) && Dur(frames, j) < target
  }

  /** Looking at frame j overflows: its expected timestamp, or the total including it, does not fit. */
  predicate StepFails(frames: seq<Frame>, j: nat)
    requires j < |frames| && frames[0].Audio?
  {
    && frames[j].Audio?
    && (|| Dur(frames, j) > I64_MAX || frames[0].timestamp + Dur(frames, j) > I64_MAX
        || ((j > 0 ==> Continues(frames, j)) && (Total(frames, j + 1) > U64_MAX || Dur(frames, j + 1) > U64_MAX)))
  }

  predicate FailsAt(frames: seq<Frame>, target: nat, j: nat) {
    j < |frames| && j < MAX_PREFIX && Reached(frames, target, j) && StepFails(frames, j)
  }

  ghost predicate Overflows(frames: seq<Frame>, target: nat) {
    exists j: nat :: FailsAt(frames, target, j)
  }

  // ---------------------------------------------------------------- facts

  lemma {:induction false} TotalMonotone(frames: seq<Frame>, j: nat, k: nat)
    requires j <= k <= |frames|
    ensures Total(frames, j) <= Total(frames, k)
    decreases k
  {
    if j < k { TotalMonotone(frames, j, k - 1); }
  }

  lemma DurMonotone(frames: seq<Frame>, j: nat, k: nat)
    requires j <= k <= |frames| && frames != [] && frames[0].Audio?
    ensures Dur(frames, j) <= Dur(frames, k)
  {
    TotalMonotone(frames, j, k);
    ExactMonotone(Total(frames, j), Total(frames, k), frames[0].rate);
  }

  /** There is at most one merge. */
  lemma MergeIsUnique(frames: seq<Frame>, target: nat, maximum: nat, j: nat, k: nat)
    requires IsMerge(frames, target, maximum, j) && IsMerge(frames, target, maximum, k)
    ensures j == k
  {
    if j < k { DurMonotone(frames, j, k - 1); } else if k < j { DurMonotone(frames, k, j - 1); }
  }

  /** Every frame of a merge starts where the exact duration of those before it ends: no drift builds up. */
  lemma MergeIsDriftFree(frames: seq<Frame>, target: nat, maximum: nat, k: nat, i: nat)
    requires IsMerge(frames, target, maximum, k) && i < k
    ensures frames[i].Audio? && frames[i].timestamp == frames[0].timestamp + Exact(Total(frames, i), frames[0].rate)
    ensures frames[i].rate == frames[0].rate && frames[i].stream == frames[0].stream
    ensures frames[i].format == frames[0].format
    ensures frames[i].sequence == frames[0].sequence + i
  {
    if i == 0 {
      QuotientUnique(0, frames[0].rate, 0, 0);
    } else {
      assert Continues(frames, i);
      SameFormat(frames, k, i);
    }
  }

  lemma {:induction false} SameFormat(frames: seq<Frame>, k: nat, i: nat)
    requires Chain(frames, k) && i < k
    ensures frames[i].rate == frames[0].rate && frames[i].stream == frames[0].stream
    ensures frames[i].format == frames[0].format
    ensures frames[i].sequence == frames[0].sequence + i
  {
    if i > 0 {
      SameFormat(frames, k, i - 1);
      assert Continues(frames, i);
    }
  }

  /** What the loop has established when it stops after c frames. */
  ghost predicate Settled(frames: seq<Frame>, target: nat, maximum: nat, c: nat) {
    !Overflows(frames, target) && forall k: nat :: IsMerge(frames, target, maximum, k) ==> k == c
  }

  ghost predicate NoFailureBefore(frames: seq<Frame>, target: nat, i: nat) {
    forall j: nat :: j < i ==> !FailsAt(frames, target, j)
  }

  /** Beyond a prefix that cannot be extended nothing is reached and nothing merges. */
  lemma StopsAtGap(frames: seq<Frame>, target: nat, maximum: nat, c: nat)
    requires NoFailureBefore(frames, target, c + 1)
    requires frames != [] && frames[0].Audio? && c <= |frames| && c <= MAX_PREFIX && Dur(frames, c) < target
    requires c < |frames| && c < MAX_PREFIX ==> !Chain(frames, c + 1)
    ensures Settled(frames, target, maximum, c)
  {
    forall j: nat | c < j && c < |frames| && c < MAX_PREFIX ensures !Chain(frames, j) {
      if Chain(frames, j) { ChainShrinks(frames, j, c + 1); }
    }
    forall k: nat | IsMerge(frames, target, maximum, k) ensures k == c {
      DurMonotone(frames, if k < c then k else c, c);
    }
  }

  lemma ChainShrinks(frames: seq<Frame>, k: nat, j: nat)
    requires Chain(frames, k) && j <= k
    ensures Chain(frames, j)
  {
  }

  lemma ChainGrows(frames: seq<Frame>, c: nat)
    requires Chain(frames, c) && c < |frames| && frames[c].Audio? && (c > 0 ==> Continues(frames, c))
    ensures Chain(frames, c + 1)
  {
  }

  /** A next prefix that is too long ends the search without a merge. */
  lemma StopsAtMaximum(frames: seq<Frame>, target: nat, maximum: nat, c: nat)
    requires NoFailureBefore(frames, target, c + 1) && 0 < target <= maximum
    requires frames != [] && frames[0].Audio? && c < |frames| && Dur(frames, c) < target && Dur(frames, c + 1) > maximum
    ensures Settled(frames, target, maximum, c)
  {
    forall j: nat | j <= |frames| && c < j ensures Dur(frames, j) > maximum { DurMonotone(frames, c + 1, j); }
    forall k: nat | IsMerge(frames, target, maximum, k) ensures k == c {
      DurMonotone(frames, if k < c then k else c, c);
    }
  }

  /** A next prefix that reaches the target is the only candidate. */
  lemma StopsAtTarget(frames: seq<Frame>, target: nat, maximum: nat, c: nat)
    requires NoFailureBefore(frames, target, c + 1) && 0 < target <= maximum
    requires frames != [] && frames[0].Audio? && c < |frames| && Dur(frames, c) < target <= Dur(frames, c + 1)
    ensures Settled(frames, target, maximum, c + 1)
  {
    forall j: nat | j <= |frames| && c < j ensures Dur(frames, j) >= target { DurMonotone(frames, c + 1, j); }
    forall k: nat | IsMerge(frames, target, maximum, k) ensures k == c + 1 {
      if k <= c { DurMonotone(frames, k, c); }
    }
  }

  // ---------------------------------------------------------------- the loop

  method SampleBoundary(start: I64, samples: U64, rate: Rate) returns (r: Result<I64>)
    ensures r == if Exact(samples, rate) <= I64_MAX && start + Exact(samples, rate) <= I64_MAX
            then Ok(start + Exact(samples, rate)) else Err(Arithmetic)
  {
    DurationIsExact(samples, rate);
    var offset := DurationNs(samples, rate);
    if offset.None? || offset.value > I64_MAX || start + offset.value > I64_MAX { return Err(Arithmetic); }
    return Ok(start + offset.value);
  }

  /**
   How many frames to merge: exactly the merge if there is one and no overflow is met on the
   way, nothing if there is none, and an error exactly for unusable durations or an overflow.
   */
  method MergePrefix(frames: seq<Frame>, target: nat, maximum: nat) returns (r: Result<Option<nat>>)
    ensures r == Err(InvalidDurations) <==> target == 0 || maximum == 0 || target > maximum
    ensures 0 < target <= maximum ==> (r == Err(Arithmetic) <==> Overflows(frames, target))
    ensures r.Ok? && r.value.Some? ==> IsMerge(frames, target, maximum, r.value.value)
    ensures r.Ok? && r.value.None? ==> forall k: nat :: !IsMerge(frames, target, maximum, k)
  {
    if target == 0 || maximum == 0 || target > maximum { return Err(InvalidDurations); }
    if frames == [] || !frames[0].Audio? { return Ok(None); }
    var first := frames[0];
    var count: nat := 0;
    var samples: U64 := 0;
    var done := false;
    QuotientUnique(0, first.rate, 0, 0);
    while !done && count < |frames| && count < MAX_PREFIX
      invariant count <= |frames| && count <= MAX_PREFIX && Chain(frames, count)
      invariant samples == Total(frames, count) && Dur(frames, count) <= U64_MAX && Dur(frames, count) <= maximum
      invariant !done ==> Dur(frames, count) < target && NoFailureBefore(frames, target, count)
      invariant done ==> Settled(frames, target, maximum, count) && (count >= 2 ==> Dur(frames, count - 1) < target)
      decreases !done, |frames| - count
    {
      var frame := frames[count];
      if !frame.Audio? {
        StopsAtGap(frames, target, maximum, count);
        done := true;
        break;
      }
      var expected := SampleBoundary(first.timestamp, samples, first.rate);
      if expected.Err? {
        assert FailsAt(frames, target, count);
        return Err(Arithmetic);
      }
      if count > 0 && !Compatible(frames[count - 1], frame, expected.value) {
        assert !Continues(frames, count) && !StepFails(frames, count);
        StopsAtGap(frames, target, maximum, count);
        done := true;
        break;
      }
      if samples + frame.samples > U64_MAX {
        assert FailsAt(frames, target, count);
        return Err(Arithmetic);
      }
      var next := samples + frame.samples;
      DurationIsExact(next, first.rate);
      var duration := DurationNs(next, first.rate);
      if duration.None? {
        assert FailsAt(frames, target, count);
        return Err(Arithmetic);
      }
      ChainGrows(frames, count);
      if duration.value > maximum {
        StopsAtMaximum(frames, target, maximum, count);
        done := true;
        break;
      }
      if duration.value >= target {
        StopsAtTarget(frames, target, maximum, count);
        done := true;
      }
      samples := next;
      count := count + 1;
    }
    if !done { StopsAtGap(frames, target, maximum, count); }
    DurationIsExact(samples, first.rate);
    var total := DurationNs(samples, first.rate);
    if count < 2 || total.value < target { return Ok(None); }
    return Ok(Some(count));
  }
}
