/** Exact sample timing: three implementations of one duration, and timestamp distances. */
module AudioTiming {
  import opened Optional
  import opened Division

  const BILLION: nat := 1_000_000_000
  const U64_MAX: nat := 0xFFFF_FFFF_FFFF_FFFF
  const I64_MAX: int := 0x7FFF_FFFF_FFFF_FFFF
  const I64_MIN: int := -0x8000_0000_0000_0000

  type U64 = n: nat | n <= U64_MAX
  type I64 = n: int | I64_MIN <= n <= I64_MAX
  type Rate = n: nat | 0 < n <= 0xFFFF_FFFF witness 1

  /** The exact duration in nanoseconds, rounded down, on unbounded integers. */
  function Exact(samples: nat, rate: Rate): nat {
    Div(samples * BILLION, rate)
  }

  function CheckedMul(a: nat, b: nat): Option<nat> {
    if a * b <= U64_MAX then Some(a * b) else None
  }

  function CheckedAdd(a: nat, b: nat): Option<nat> {
    if a + b <= U64_MAX then Some(a + b) else None
  }

  /** The core's conversion: whole seconds and remaining samples scaled apart, every operation checked. */
  function DurationNs(samples: U64, rate: Rate): Option<nat> {
    var whole := CheckedMul(Div(samples, rate), BILLION);
    var fraction := CheckedMul(Mod(samples, rate), BILLION);
    if whole.None? || fraction.None? then None else CheckedAdd(whole.value, Div(fraction.value, rate))
  }

  /** The queue's conversion for metrics: one saturating product, a checked division. */
  function MeasuredNs(samples: U64, rate: nat): nat {
    if rate == 0 then 0
    else Div(if samples * BILLION <= U64_MAX then samples * BILLION else U64_MAX, rate)
  }

  /** The media pipeline's conversion to a signed duration, with its 64-bit wrap-around written out. */
  function PipelineNs(samples: U64, rate: nat): Option<I64> {
    if rate == 0 || samples > I64_MAX then None
    else
      var whole := Div(samples, rate);
      if whole > I64_MAX / BILLION then None
      else
        var value := Wrap(Wrap(whole * BILLION) + Div(Wrap(Mod(samples, rate) * BILLION), rate));
        if value > I64_MAX then None else Some(value)
  }

  function Wrap(a: nat): U64 {
    a % (U64_MAX + 1)
  }

  // ---------------------------------------------------------------- division

  lemma Recombine(w: nat, d: nat, r: nat, k: nat, q: nat, rest: nat)
    requires r * k == q * d + rest
    ensures (w * d + r) * k == (w * k + q) * d + rest
  {
    assert (w * d + r) * k == w * d * k + r * k;
    assert (w * k + q) * d == w * k * d + q * d;
    assert w * d * k == w * k * d;
  }

  /** Scaling the whole seconds and the remainder apart loses nothing. */
  lemma SplitIsExact(samples: nat, rate: Rate)
    ensures Exact(samples, rate) == Div(samples, rate) * BILLION + Div(Mod(samples, rate) * BILLION, rate)
  {
    var w, r := Div(samples, rate), Mod(samples, rate);
    var f := r * BILLION;
    Divided(samples, rate);
    Divided(f, rate);
    Recombine(w, rate, r, BILLION, Div(f, rate), Mod(f, rate));
    QuotientUnique(samples * BILLION, rate, w * BILLION + Div(f, rate), Mod(f, rate));
  }

  lemma ExactMonotone(samples: nat, more: nat, rate: Rate)
    requires samples <= more
    ensures Exact(samples, rate) <= Exact(more, rate)
  {
    QuotientMonotone(samples * BILLION, more * BILLION, rate);
  }

  // ---------------------------------------------------------------- the three agree

  lemma RemainderFits(samples: nat, rate: Rate)
    ensures Mod(samples, rate) * BILLION <= U64_MAX
  {
    Divided(samples, rate);
  }

  /** The core returns the exact duration precisely when it fits 64 bits, and fails otherwise. */
  lemma DurationIsExact(samples: U64, rate: Rate)
    ensures DurationNs(samples, rate) == if Exact(samples, rate) <= U64_MAX then Some(Exact(samples, rate)) else None
  {
    SplitIsExact(samples, rate);
    RemainderFits(samples, rate);
  }

  lemma FractionIsSmall(r: nat, rate: Rate)
    requires r < rate
    ensures Div(r * BILLION, rate) < BILLION
  {
    Divided(r * BILLION, rate);
    Scaled(r, rate);
    Grows(BILLION - 1, Div(r * BILLION, rate), rate);
  }

  lemma Scaled(r: nat, d: nat)
    requires r < d
    ensures r * BILLION < (BILLION - 1) * d + d
  {
  }

  lemma ScaledBound(w: nat)
    ensures w > I64_MAX / BILLION ==> w * BILLION > I64_MAX
    ensures w <= I64_MAX / BILLION ==> w * BILLION <= I64_MAX
  {
  }

  lemma WrapsNothing(a: nat)
    requires a <= U64_MAX
    ensures Wrap(a) == a
  {
  }

  /** The pipeline returns the exact duration precisely when input and output fit 63 bits. */
  lemma PipelineIsExact(samples: U64, rate: Rate)
    ensures PipelineNs(samples, rate) ==
            if samples <= I64_MAX && Exact(samples, rate) <= I64_MAX then Some(Exact(samples, rate)) else None
  {
    SplitIsExact(samples, rate);
    RemainderFits(samples, rate);
    Divided(samples, rate);
    FractionIsSmall(Mod(samples, rate), rate);
    var w, f := Div(samples, rate), Mod(samples, rate) * BILLION;
    ScaledBound(w);
    WrapsNothing(f);
    if w <= I64_MAX / BILLION {
      WrapsNothing(w * BILLION);
      WrapsNothing(w * BILLION + Div(f, rate));
    }
  }

  /** The queue's measurement is exact until its product saturates and never too large after that. */
  lemma MeasurementIsExact(samples: U64, rate: Rate)
    ensures samples * BILLION <= U64_MAX ==> MeasuredNs(samples, rate) == Exact(samples, rate)
    ensures MeasuredNs(samples, rate) <= Exact(samples, rate)
  {
    if samples * BILLION > U64_MAX { QuotientMonotone(U64_MAX, samples * BILLION, rate); }
  }

  /** Wherever the pipeline answers and the measurement does not saturate, all three say the same. */
  lemma ImplementationsAgree(samples: U64, rate: Rate)
    ensures PipelineNs(samples, rate).Some? ==> DurationNs(samples, rate) == PipelineNs(samples, rate)
    ensures samples * BILLION <= U64_MAX ==> DurationNs(samples, rate) == Some(MeasuredNs(samples, rate))
  {
    DurationIsExact(samples, rate);
    PipelineIsExact(samples, rate);
    MeasurementIsExact(samples, rate);
    if samples * BILLION <= U64_MAX {
      QuotientMonotone(samples * BILLION, U64_MAX, rate); QuotientAtMost(U64_MAX, rate);
    }
  }

  lemma AddParts(p: nat, q: nat, d: nat)
    ensures (p + q) * d == p * d + q * d && (p + q + 1) * d == p * d + q * d + d
  {
  }

  /**
   Why boundaries are computed from the running total: durations rounded frame by frame may
   fall behind the exact total, by at most one nanosecond at every frame added.
   */
  lemma RoundingLoss(samples: nat, more: nat, rate: Rate)
    ensures 0 <= Exact(samples + more, rate) - (Exact(samples, rate) + Exact(more, rate)) <= 1
  {
    var a, b := samples * BILLION, more * BILLION;
    assert (samples + more) * BILLION == a + b;
    Divided(a, rate);
    Divided(b, rate);
    var p, q := Div(a, rate), Div(b, rate);
    AddParts(p, q, rate);
    var r := Mod(a, rate) + Mod(b, rate);
    if r < rate { QuotientUnique(a + b, rate, p + q, r); } else { QuotientUnique(a + b, rate, p + q + 1, r - rate); }
  }

  // ---------------------------------------------------------------- distance

  /** The unsigned image of a signed value. */
  function Unsigned(x: I64): U64 {
    if x >= 0 then x else x + U64_MAX + 1
  }

  function WrappingSub(a: U64, b: U64): U64 {
    (a - b) % (U64_MAX + 1)
  }

  function Distance(left: I64, right: I64): U64 {
    if left >= right then WrappingSub(Unsigned(left), Unsigned(right)) else WrappingSub(Unsigned(right), Unsigned(left))
  }

  /** The wrapping subtraction of the unsigned images is the true distance, even across the whole range. */
  lemma DistanceIsExact(left: I64, right: I64)
    ensures Distance(left, right) == if left >= right then left - right else right - left
  {
    var m := U64_MAX + 1;
    var d := if left >= right then Unsigned(left) - Unsigned(right) else Unsigned(right) - Unsigned(left);
    var e := if left >= right then left - right else right - left;
    assert d == e || d == e - m || d == e + m;
    assert e % m == e && (e - m) % m == e && (e + m) % m == e;
  }
}
