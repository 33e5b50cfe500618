/**
 Which load means which state: the flow controller compares shares of its limits, and the
 integer comparisons of the model are exactly these.
 */
module FlowLevels {
  import opened Optional
  import opened RealtimeProfile
  import opened FlowControl
  import opened FlowRuns
  import opened FlowHysteresis

  function Share(value: nat, limit: nat): real
    requires limit > 0
  {
    value as real / limit as real
  }

  function Larger(a: real, b: real): real {
    if a >= b then a else b
  }

  /** A valid profile has no zero limit. */
  predicate Limited(p: Profile) {
    && p.tuning.maxFrames > 0 && p.tuning.maxBytes > 0 && p.tuning.maxMedia > 0
    && p.contract.latencyBudget > 0 && p.tuning.deadline > 0
  }

  lemma ValidIsLimited(p: Profile)
    requires Validate(p).None?
    ensures Limited(p)
  {
  }

  /** The largest share of a limit that is in use. */
  function Capacity(p: Profile, q: Load): real
    requires Limited(p)
  {
    Larger(Larger(Share(q.frames, p.tuning.maxFrames), Share(q.bytes, p.tuning.maxBytes)),
           Share(q.media, p.tuning.maxMedia))
  }

  function Latency(p: Profile, n: Prediction): real
    requires Limited(p)
  {
    Share(n.latency, p.contract.latencyBudget)
  }

  /** A share of the limits is reached, or saturation is predicted within a multiple of the deadline. */
  predicate Reaches(p: Profile, q: Load, n: Prediction, share: real, deadlines: real)
    requires Limited(p)
  {
    || Capacity(p, q) >= share || Latency(p, n) >= share
    || (n.saturation.Some? && n.saturation.value as real <= deadlines * p.tuning.deadline as real)
  }

  lemma ShareReaches(value: nat, limit: nat)
    requires limit > 0
    ensures Share(value, limit) >= 1.0 <==> value >= limit
    ensures Share(value, limit) >= 0.75 <==> 4 * value >= 3 * limit
    ensures Share(value, limit) >= 0.5 <==> 2 * value >= limit
  {
    var v, l := value as real, limit as real;
    assert Share(value, limit) * l == v;
    ShareAtLeast(v, l, 1.0);
    ShareAtLeast(v, l, 0.75);
    ShareAtLeast(v, l, 0.5);
  }

  lemma ShareAtLeast(v: real, l: real, share: real)
    requires l > 0.0
    ensures v / l >= share <==> v >= share * l
  {
    assert (v / l) * l == v;
    assert v - share * l == (v / l - share) * l;
    ProductSign(v / l - share, l);
  }

  lemma ProductSign(a: real, l: real)
    requires l > 0.0
    ensures a * l >= 0.0 <==> a >= 0.0
  {
  }

  lemma SharesReach(p: Profile, q: Load, n: Prediction)
    requires Limited(p)
    ensures Capacity(p, q) >= 1.0 <==> HardLimit(p, q)
    ensures Capacity(p, q) >= 0.75 <==> AboveThreeQuarters(p, q)
    ensures Latency(p, n) >= 1.0 <==> n.latency >= p.contract.latencyBudget
    ensures Latency(p, n) >= 0.75 <==> 4 * n.latency >= 3 * p.contract.latencyBudget
    ensures Latency(p, n) >= 0.5 <==> 2 * n.latency >= p.contract.latencyBudget
    ensures Capacity(p, q) >= 0.5 <==>
            2 * q.frames >= p.tuning.maxFrames || 2 * q.bytes >= p.tuning.maxBytes || 2 * q.media >= p.tuning.maxMedia
  {
    ShareReaches(q.frames, p.tuning.maxFrames);
    ShareReaches(q.bytes, p.tuning.maxBytes);
    ShareReaches(q.media, p.tuning.maxMedia);
    ShareReaches(n.latency, p.contract.latencyBudget);
  }

  /** What an evaluation wants, told by shares. */
  lemma DesiredIs(p: Profile, q: Load, n: Prediction)
    requires Limited(p)
    ensures Desired(p, q, n).Critical? <==> Reaches(p, q, n, 1.0, 0.5)
    ensures Desired(p, q, n).Normal? <==> !Reaches(p, q, n, 0.75, 1.0)
    ensures Healthy(p, q, n) <==> !Reaches(p, q, n, 0.5, 2.0)
  {
    SharesReach(p, q, n);
  }

  /**
   The state after any accepted event of a port with a valid profile: a normal port stays so
   exactly below three quarters of every limit, with saturation further than a deadline away;
   any port short of critical becomes critical exactly at a full limit or half a deadline from
   saturation; a critical one never eases to pressure; and none resumes at half a limit or more.
   */
  lemma LoadDecidesState(p: Profile, f: Flow, e: Event)
    requires Validate(p).None? && !Respond(p, f, e).reply.Refused?
    ensures Limited(p)
    ensures var g := Respond(p, f, e).flow;
            && (f.state.Normal? ==> (g.state.Normal? <==> !Reaches(p, g.queued, e.n, 0.75, 1.0)))
            && (!f.state.Critical? ==> (g.state.Critical? <==> Reaches(p, g.queued, e.n, 1.0, 0.5)))
            && (f.state.Critical? ==> !g.state.Pressure?)
            && (!f.state.Normal? && Reaches(p, g.queued, e.n, 0.5, 2.0) ==> !g.state.Normal?)
  {
    ValidIsLimited(p);
    var g := RepliesAreEvaluations(p, f, e);
    DesiredIs(p, g.queued, e.n);
  }
}
