/** The executor's loops under the mailbox lock: delivering what can be delivered, then admitting what fits. */
module ManagedLoops {
  import opened Optional
  import opened ManagedModel
  import opened ManagedInvariant

  /** The head waits only for an unresolved request or for room in the result mailbox. */
  predicate HeadWaits(cfg: Config, s: State) {
    !cfg.strict || s.next !in s.ordered || (s.ordered[s.next].Some? && |s.results| >= cfg.resultCapacity)
  }

  /** Consecutive steps of the stream. */
  ghost predicate Segment(cfg: Config, trail: seq<State>) {
    |trail| > 0 && forall i: nat {:trigger Linked(cfg, trail, i)} :: 0 < i < |trail| ==> Linked(cfg, trail, i)
  }

  lemma SegmentGrows(cfg: Config, trail: seq<State>, t: State, a: Action)
    requires Segment(cfg, trail) && Step(cfg, trail[|trail| - 1], a) == Some(t)
    ensures Segment(cfg, trail + [t])
  {
    var more := trail + [t];
    assert Follows(cfg, trail[|trail| - 1], t);
    forall i: nat | 0 < i < |more| ensures Linked(cfg, more, i) {
      if i < |trail| { assert Linked(cfg, trail, i); }
    }
  }

  /** A segment that starts where a run ends prolongs the run, so everything proved of runs holds after it. */
  lemma SegmentProlongsRun(cfg: Config, run: seq<State>, trail: seq<State>)
    requires IsRun(cfg, run) && Segment(cfg, trail) && run[|run| - 1] == trail[0]
    ensures IsRun(cfg, run + trail[1..])
  {
    var all := run + trail[1..];
    forall i: nat | 0 < i < |all| ensures Linked(cfg, all, i) {
      if i < |run| {
        assert Linked(cfg, run, i);
      } else {
        var k := i - |run| + 1;
        assert Linked(cfg, trail, k) && all[i] == trail[k] && all[i - 1] == trail[k - 1];
      }
    }
  }

  /** The results among the resolutions from `lo` up to `hi`, in order. */
  function ResultsBetween(ordered: map<nat, Option<Outcome>>, lo: nat, hi: nat): seq<Delivery>
    decreases hi
  {
    if hi <= lo then []
    else
      var last := if hi - 1 in ordered && ordered[hi - 1].Some? then [Delivery(hi - 1, ordered[hi - 1].value)] else [];
      ResultsBetween(ordered, lo, hi - 1) + last
  }

  ghost predicate Consumed(before: map<nat, Option<Outcome>>, after: map<nat, Option<Outcome>>, lo: nat, hi: nat) {
    && (forall q: nat :: lo <= q < hi ==> q in before)
    && (forall q: nat :: q in after <==> q in before && !(lo <= q < hi))
    && (forall q: nat :: q in after ==> after[q] == before[q])
  }

  /** Where the loop stands: everything from the old head to the new one was consumed, its results delivered. */
  ghost predicate HandedOn(s: State, t: State) {
    && s.next <= t.next && Consumed(s.ordered, t.ordered, s.next, t.next)
    && t.results == s.results + ResultsBetween(s.ordered, s.next, t.next)
    && t.delivered == s.delivered + ResultsBetween(s.ordered, s.next, t.next)
  }

  lemma HandOnOne(cfg: Config, s: State, t: State)
    requires HandedOn(s, t)
    ensures HeadWaits(cfg, t) ==> StrictRound(cfg, t) == t.(pc := Admitting)
    ensures !HeadWaits(cfg, t) ==>
              && HandedOn(s, StrictRound(cfg, t)) && StrictRound(cfg, t).pc == t.pc
              && t.next in t.ordered && StrictRound(cfg, t).ordered == t.ordered - {t.next}
  {
    if !HeadWaits(cfg, t) {
      var u := StrictRound(cfg, t);
      var more := if t.ordered[t.next].Some? then [Delivery(t.next, t.ordered[t.next].value)] else [];
      assert ResultsBetween(s.ordered, s.next, t.next + 1) == ResultsBetween(s.ordered, s.next, t.next) + more;
      assert u.results == t.results + more && u.delivered == t.delivered + more;
    }
  }

  /**
   Ordered resolutions are handed on one by one until the head has to wait: what is delivered
   is exactly the results of the requests the head passes, and no resolved head is left behind.
   */
  method DeliverOrdered(cfg: Config, s: State) returns (t: State, ghost trail: seq<State>)
    requires s.pc.DeliverStrict?
    ensures Segment(cfg, trail) && trail[0] == s && trail[|trail| - 1] == t && t.pc.Admitting?
    ensures HandedOn(s, t) && HeadWaits(cfg, t)
  {
    t, trail := s, [s];
    while t.pc.DeliverStrict?
      invariant Segment(cfg, trail) && trail[0] == s && trail[|trail| - 1] == t && HandedOn(s, t)
      invariant t.pc.DeliverStrict? || (t.pc.Admitting? && HeadWaits(cfg, t))
      decreases t.pc.DeliverStrict?, |t.ordered.Keys|
    {
      HandOnOne(cfg, s, t);
      SegmentGrows(cfg, trail, StrictRound(cfg, t), Executor);
      if !HeadWaits(cfg, t) { assert StrictRound(cfg, t).ordered.Keys == t.ordered.Keys - {t.next}; }
      t := StrictRound(cfg, t);
      trail := trail + [t];
    }
  }

  // ---------------------------------------------------------------- admitting

  function AdmitRound(cfg: Config, s: State, due: nat -> bool): State {
    var u := AdmitStep(cfg, s, due(s.popped));
    if u.Some? then u.value else s
  }

  /** What was popped came off the front of the input. */
  predicate TookFront(s: State, t: State) {
    s.popped <= t.popped <= s.popped + |s.input| && t.input == s.input[t.popped - s.popped..]
  }

  lemma AdmitSteps(cfg: Config, t: State, due: bool)
    requires t.pc.Admitting?
    ensures AdmitStep(cfg, t, due).Some?
    ensures !CanAdmit(cfg, t) ==> AdmitStep(cfg, t, due).value == EndAdmission(t)
    ensures CanAdmit(cfg, t) ==>
              var u := AdmitStep(cfg, t, due).value;
              u.pc.Admitting? && u.popped == t.popped + 1 && u.input == t.input[1..]
  {
  }

  lemma RoundIsValue(cfg: Config, t: State, due: nat -> bool, u: State)
    requires AdmitStep(cfg, t, due(t.popped)) == Some(u)
    ensures AdmitRound(cfg, t, due) == u
  {
  }

  lemma AdmitOne(cfg: Config, s: State, t: State, due: nat -> bool, u: State)
    requires t.pc.Admitting? && TookFront(s, t) && u == AdmitRound(cfg, t, due)
    ensures !CanAdmit(cfg, t) ==> u == EndAdmission(t)
    ensures CanAdmit(cfg, t) ==> u.pc.Admitting? && |u.input| < |t.input|
    ensures TookFront(s, u)
  {
    AdmitSteps(cfg, t, due(t.popped));
    RoundIsValue(cfg, t, due, AdmitStep(cfg, t, due(t.popped)).value);
    if CanAdmit(cfg, t) { FrontTaken(s, t, u); }
  }

  lemma RoundIsStep(cfg: Config, t: State, due: nat -> bool)
    requires AdmitStep(cfg, t, due(t.popped)).Some?
    ensures Step(cfg, t, Admit(due(t.popped))) == Some(AdmitRound(cfg, t, due))
  {
  }

  lemma FrontTaken(s: State, t: State, u: State)
    requires TookFront(s, t) && t.input != [] && u.popped == t.popped + 1 && u.input == t.input[1..]
    ensures TookFront(s, u)
  {
  }

  /** Requests are admitted from the front of the input until none is left or the window is full. */
  method AdmitAll(cfg: Config, s: State, due: nat -> bool) returns (t: State, ghost trail: seq<State>)
    requires s.pc.Admitting?
    ensures Segment(cfg, trail) && trail[0] == s && trail[|trail| - 1] == t
    ensures (t.pc.Spawning? || t.pc.Draining? || t.pc.Parked?)
    ensures !CanAdmit(cfg, t) && TookFront(s, t)
  {
    t, trail := s, [s];
    while t.pc.Admitting?
      invariant Segment(cfg, trail) && trail[0] == s && trail[|trail| - 1] == t && TookFront(s, t)
      invariant t.pc.Admitting?
                || (!t.pc.Admitting? && (t.pc.Spawning? || t.pc.Draining? || t.pc.Parked?) && !CanAdmit(cfg, t))
      decreases t.pc.Admitting?, |t.input|
    {
      AdmitOne(cfg, s, t, due, AdmitRound(cfg, t, due));
      AdmitSteps(cfg, t, due(t.popped));
      RoundIsStep(cfg, t, due);
      SegmentGrows(cfg, trail, AdmitRound(cfg, t, due), Admit(due(t.popped)));
      if !CanAdmit(cfg, t) { EndCannotAdmit(cfg, t); }
      t := AdmitRound(cfg, t, due);
      trail := trail + [t];
    }
  }

  lemma EndCannotAdmit(cfg: Config, s: State)
    requires !CanAdmit(cfg, s)
    ensures !CanAdmit(cfg, EndAdmission(s))
  {
  }

  /** With the invariant, admission stops only at an empty input or a full window. */
  lemma AdmissionStopsWhenFull(cfg: Config, s: State)
    requires InputOk(s) && !s.closed && !CanAdmit(cfg, s)
    ensures s.input == [] || |s.active| + |s.ordered.Keys - s.active| + |s.relaxed| >= cfg.maxInFlight
  {
    if s.input != [] { assert s.input[0] == s.popped; }
  }
}
