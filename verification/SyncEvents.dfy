/**
 What a log of the synchronous runner tells: whether every answer in it is the behaviour's own,
 whether some answer in it is a failure, and how what was asked, delivered and checked follows
 from what the callbacks emitted.
 */
module SyncEvents {
  import opened Optional
  import opened SyncRouting

  // ---------------------------------------------------------------- failures

  /** What may end a frame's passage through an edge without ending the run, or with it. */
  predicate PolicyFails(e: Edge, f: Frame, a: Answer) {
    || f.kind != e.kind
    || (e.validates && (a.validation.ValidationFails? || (a.validation.Reject? && (e.abortsOnReject || !a.notified))))
    || ((e.validates ==> a.validation.Accept?) && e.transforms && TransformAborts(e, f, a))
  }

  /** A transform may hand on the frame, replace it by a new one of the edge's type, drop it, or signal instead. */
  predicate TransformAborts(e: Edge, f: Frame, a: Answer) {
    match a.transform
    case Forward(g) => g != f
    case Replace(g) => g.id == f.id || g.kind != e.kind
    case Drop => !a.notified
    case EmitSignal(g) => g.kind != SIGNAL_KIND || !a.notified
    case AbortRun => true
    case TransformFails => true
  }

  /** The frame that comes out at the far end of the edge, if any. */
  function PassedBy(e: Edge, f: Frame, a: Answer): Option<Frame> {
    if PolicyFails(e, f, a) || (e.validates && a.validation.Reject?) then None
    else if !e.transforms then Some(f)
    else if a.transform.Forward? || a.transform.Replace? then Some(a.transform.frame)
    else None
  }

  /** The verdict on a frame follows from what the policies answered: a failure, a frame, or neither. */
  lemma VerdictIs(e: Edge, f: Frame, a: Answer)
    ensures Apply(e, f, a).Aborts? <==> PolicyFails(e, f, a)
    ensures Apply(e, f, a).Delivers? <==> PassedBy(e, f, a).Some?
    ensures Apply(e, f, a).Delivers? ==> PassedBy(e, f, a) == Some(Apply(e, f, a).frame)
  {
  }

  predicate PortAccepts(g: Graph, node: nat, m: Emission) {
    Output(node, m.port) in g.outputs && g.outputs[Output(node, m.port)] == m.frame.kind
  }

  predicate Fails(g: Graph, e: Event) {
    match e
    case PrepareCall(_, good) => !good
    case ProcessCall(_, answer) => answer.None?
    case PortCheck(node, m) => !PortAccepts(g, node, m)
    case PolicyCall(j, f, a) => j < |g.edges| && PolicyFails(g.edges[j], f, a)
    case FinishCall(_, good) => !good
  }

  predicate Clean(g: Graph, log: seq<Event>) {
    forall i :: 0 <= i < |log| ==> !Fails(g, log[i])
  }

  /** The last answer is a failure, and the only one. */
  predicate Broken(g: Graph, log: seq<Event>) {
    log != [] && Fails(g, log[|log| - 1]) && Clean(g, log[..|log| - 1])
  }

  // ---------------------------------------------------------------- what a log amounts to

  datatype Ask = Ask(edge: nat, frame: Frame)
  datatype Sent = Sent(node: nat, emission: Emission)

  /**
   Of which nodes callbacks were made; which frames were shown to which edges and
   which came through; which emissions were checked; and, from what process callbacks emitted,
   which emissions there were to check and which frames to show to which edges.
   */
  datatype Digest = Digest(
    prepared: seq<nat>,
    processed: seq<nat>,
    finished: seq<nat>,
    asks: seq<Ask>,
    delivered: seq<Item>,
    checks: seq<Sent>,
    wanted: seq<Ask>,
    sent: seq<Sent>)

  const NOTHING := Digest([], [], [], [], [], [], [], [])

  function Plus(a: Digest, b: Digest): Digest {
    Digest(a.prepared + b.prepared, a.processed + b.processed, a.finished + b.finished,
           a.asks + b.asks, a.delivered + b.delivered, a.checks + b.checks, a.wanted + b.wanted, a.sent + b.sent)
  }

  /** The enabled edges of the emission's port among the first k, in order. */
  function AsksFor(g: Graph, node: nat, m: Emission, k: nat): seq<Ask>
    requires k <= |g.edges|
  {
    if k == 0 then []
    else
      var e := g.edges[k - 1];
      AsksFor(g, node, m, k - 1)
      + (if e.enabled && e.from == node && e.port == m.port then [Ask(k - 1, m.frame)] else [])
  }

  function AllAsks(g: Graph, node: nat, ms: seq<Emission>): seq<Ask> {
    if ms == [] then [] else AllAsks(g, node, ms[..|ms| - 1]) + AsksFor(g, node, ms[|ms| - 1], |g.edges|)
  }

  function SentBy(node: nat, ms: seq<Emission>): seq<Sent> {
    seq(|ms|, i requires 0 <= i < |ms| => Sent(node, ms[i]))
  }

  function DigestOne(g: Graph, e: Event): Digest {
    match e
    case PrepareCall(node, _) => NOTHING.(prepared := [node])
    case FinishCall(node, _) => NOTHING.(finished := [node])
    case PortCheck(node, m) => NOTHING.(checks := [Sent(node, m)])
    case PolicyCall(j, f, a) =>
      NOTHING.(asks := [Ask(j, f)],
               delivered := if j < |g.edges| && PassedBy(g.edges[j], f, a).Some?
                            then [Item(g.edges[j].to, PassedBy(g.edges[j], f, a).value)] else [])
    case ProcessCall(node, answer) =>
      var ms := if answer.Some? then Limited(answer.value) else [];
      NOTHING.(processed := [node], wanted := AllAsks(g, node, ms), sent := SentBy(node, ms))
  }

  function DigestOf(g: Graph, log: seq<Event>): Digest {
    if log == [] then NOTHING else Plus(DigestOf(g, log[..|log| - 1]), DigestOne(g, log[|log| - 1]))
  }

  lemma PlusAssociates(a: Digest, b: Digest, c: Digest)
    ensures Plus(Plus(a, b), c) == Plus(a, Plus(b, c))
  {
  }

  lemma {:induction false} DigestJoins(g: Graph, a: seq<Event>, b: seq<Event>)
    ensures DigestOf(g, a + b) == Plus(DigestOf(g, a), DigestOf(g, b))
  {
    if b == [] {
      assert a + b == a;
    } else {
      var rest, last := b[..|b| - 1], b[|b| - 1];
      assert (a + b)[..|a + b| - 1] == a + rest;
      DigestJoins(g, a, rest);
      PlusAssociates(DigestOf(g, a), DigestOf(g, rest), DigestOne(g, last));
    }
  }

  lemma DigestSingle(g: Graph, e: Event)
    ensures DigestOf(g, [e]) == DigestOne(g, e)
  {
    assert [e][..0] == [];
    assert DigestOf(g, [e]) == Plus(NOTHING, DigestOne(g, e));
  }

  /** Everything emitted was checked and shown to every enabled edge of its port, in order. */
  predicate Complete(d: Digest) {
    d.asks == d.wanted && d.checks == d.sent
  }

  /** So far. */
  predicate Partial(d: Digest) {
    d.asks <= d.wanted && d.checks <= d.sent
  }

  // ---------------------------------------------------------------- honest answers

  /** The answer is the behaviour's own to the callback that comes after `at` others. */
  predicate Answers(b: Behaviour, e: Event, at: nat) {
    match e
    case PrepareCall(_, good) => good == b.prepare(at)
    case ProcessCall(_, answer) => answer == b.process(at)
    case PortCheck(_, _) => true
    case PolicyCall(_, _, answer) => answer == b.edge(at)
    case FinishCall(_, good) => good == b.finish(at)
  }

  /** Every answer but a port check is that of a callback. */
  function CallsIn(e: Event): nat {
    if e.PortCheck? then 0 else 1
  }

  /** How many callbacks answered before entry `i`. */
  function CallsBefore(log: seq<Event>, i: nat): nat
    requires i <= |log|
  {
    if i == 0 then 0 else CallsBefore(log, i - 1) + CallsIn(log[i - 1])
  }

  lemma {:induction false} CallsBeforeFirst(first: seq<Event>, second: seq<Event>, i: nat)
    requires i <= |first|
    ensures CallsBefore(first + second, i) == CallsBefore(first, i)
  {
    if i > 0 { CallsBeforeFirst(first, second, i - 1); }
  }

  lemma {:induction false} CallsBeforeSecond(first: seq<Event>, second: seq<Event>, k: nat)
    requires k <= |second|
    ensures CallsBefore(first + second, |first| + k) == CallsBefore(first, |first|) + CallsBefore(second, k)
  {
    if k == 0 {
      CallsBeforeFirst(first, second, |first|);
    } else {
      CallsBeforeSecond(first, second, k - 1);
      assert (first + second)[|first| + k - 1] == second[k - 1];
    }
  }

  predicate HonestAt(b: Behaviour, log: seq<Event>, tick: nat, i: nat)
    requires i < |log|
  {
    Answers(b, log[i], tick + CallsBefore(log, i))
  }

  /** Every answer is the behaviour's own, to a callback after `tick` others and those before it in the log. */
  ghost predicate Honest(b: Behaviour, log: seq<Event>, tick: nat) {
    forall i: nat {:trigger HonestAt(b, log, tick, i)} :: i < |log| ==> HonestAt(b, log, tick, i)
  }

  lemma HonestJoinsAt(b: Behaviour, first: seq<Event>, second: seq<Event>, tick: nat, mid: nat, i: nat)
    requires mid == tick + CallsBefore(first, |first|) && i < |first| + |second|
    requires if i < |first| then HonestAt(b, first, tick, i) else HonestAt(b, second, mid, i - |first|)
    ensures HonestAt(b, first + second, tick, i)
  {
    if i < |first| { CallsBeforeFirst(first, second, i); }
    else { CallsBeforeSecond(first, second, i - |first|); }
  }

  lemma HonestJoins(b: Behaviour, first: seq<Event>, second: seq<Event>, tick: nat, mid: nat)
    requires mid == tick + CallsBefore(first, |first|) && Honest(b, first, tick) && Honest(b, second, mid)
    ensures Honest(b, first + second, tick)
  {
    forall i: nat | i < |first + second| ensures HonestAt(b, first + second, tick, i) {
      assert if i < |first| then HonestAt(b, first, tick, i) else HonestAt(b, second, mid, i - |first|);
      HonestJoinsAt(b, first, second, tick, mid, i);
    }
  }

  // ---------------------------------------------------------------- what a log may look like

  /** A log that follows the behaviour, and ends at its first failure if there is one. */
  ghost predicate Tells(g: Graph, b: Behaviour, log: seq<Event>, tick: nat, now: nat, ok: bool) {
    && Honest(b, log, tick) && now == tick + CallsBefore(log, |log|)
    && (if ok then Clean(g, log) else Broken(g, log))
  }

  lemma BrokenJoins(g: Graph, first: seq<Event>, second: seq<Event>, ok: bool)
    requires Clean(g, first) && (if ok then Clean(g, second) else Broken(g, second))
    ensures if ok then Clean(g, first + second) else Broken(g, first + second)
  {
    if !ok { assert (first + second)[..|first + second| - 1] == first + second[..|second| - 1]; }
  }

  lemma TellsMore(g: Graph, b: Behaviour, first: seq<Event>, second: seq<Event>, tick: nat, mid: nat, now: nat,
                  ok: bool)
    requires Tells(g, b, first, tick, mid, true) && Tells(g, b, second, mid, now, ok)
    ensures Tells(g, b, first + second, tick, now, ok)
    ensures DigestOf(g, first + second) == Plus(DigestOf(g, first), DigestOf(g, second))
  {
    HonestJoins(b, first, second, tick, mid);
    CallsBeforeSecond(first, second, |second|);
    DigestJoins(g, first, second);
    BrokenJoins(g, first, second, ok);
  }

  lemma OneTells(g: Graph, b: Behaviour, e: Event, tick: nat)
    requires Answers(b, e, tick)
    ensures Tells(g, b, [e], tick, tick + CallsIn(e), !Fails(g, e))
    ensures DigestOf(g, [e]) == DigestOne(g, e)
  {
    DigestSingle(g, e);
    assert [e][..0] == [] && [e][1..] == [];
  }

  // ---------------------------------------------------------------- routing

  /** Only edges are heard of: no callback of a node, no port check. */
  predicate EdgesOnly(d: Digest) {
    d == NOTHING.(asks := d.asks, delivered := d.delivered)
  }

  /** The frame was shown to the edges of its port among the first k, and these items came through. */
  predicate ShownTo(g: Graph, node: nat, m: Emission, k: nat, d: Digest, items: seq<Item>, ok: bool)
    requires k <= |g.edges|
  {
    && EdgesOnly(d) && d.delivered == items
    && (if ok then d.asks == AsksFor(g, node, m, k) else d.asks <= AsksFor(g, node, m, k))
  }

  lemma JudgedMore(g: Graph, node: nat, m: Emission, k: nat, d: Digest, items: seq<Item>, a: Answer)
    requires 0 < k <= |g.edges| && Routes(g.edges[k - 1], node, m) && ShownTo(g, node, m, k - 1, d, items, true)
    ensures var e, judged := g.edges[k - 1], PolicyCall(k - 1, m.frame, a);
            var v := Apply(e, m.frame, a);
            && ShownTo(g, node, m, k, Plus(d, DigestOne(g, judged)),
                       if v.Delivers? then items + [Item(e.to, v.frame)] else items, !v.Aborts?)
            && (Fails(g, judged) <==> v.Aborts?)
  {
    VerdictIs(g.edges[k - 1], m.frame, a);
  }

  /** What routing to the first k edges of the port has come to. */
  ghost predicate FannedOut(g: Graph, b: Behaviour, node: nat, m: Emission, tick: nat, k: nat, r: Routed)
    requires k <= |g.edges|
  {
    Tells(g, b, r.events, tick, r.tick, r.ok) && ShownTo(g, node, m, k, DigestOf(g, r.events), r.items, r.ok)
  }

  /** With one edge more. */
  function OneEdgeMore(g: Graph, b: Behaviour, m: Emission, k: nat, r: Routed): Routed
    requires 0 < k <= |g.edges|
  {
    var e, a := g.edges[k - 1], b.edge(r.tick);
    var v := Apply(e, m.frame, a);
    Routed(if v.Delivers? then r.items + [Item(e.to, v.frame)] else r.items, !v.Aborts?, r.tick + 1,
           r.events + [PolicyCall(k - 1, m.frame, a)])
  }

  lemma FanoutNext(g: Graph, b: Behaviour, node: nat, m: Emission, tick: nat, k: nat, r: Routed)
    requires 0 < k <= |g.edges| && r.ok && Routes(g.edges[k - 1], node, m) && FannedOut(g, b, node, m, tick, k - 1, r)
    ensures FannedOut(g, b, node, m, tick, k, OneEdgeMore(g, b, m, k, r))
  {
    var a := b.edge(r.tick);
    var judged := PolicyCall(k - 1, m.frame, a);
    JudgedMore(g, node, m, k, DigestOf(g, r.events), r.items, a);
    OneTells(g, b, judged, r.tick);
    TellsMore(g, b, r.events, [judged], tick, r.tick, r.tick + 1, !Fails(g, judged));
  }

  lemma FanoutPast(g: Graph, b: Behaviour, node: nat, m: Emission, tick: nat, k: nat, r: Routed)
    requires 0 < k <= |g.edges| && (!r.ok || !Routes(g.edges[k - 1], node, m))
    requires FannedOut(g, b, node, m, tick, k - 1, r)
    ensures FannedOut(g, b, node, m, tick, k, r)
  {
  }

  lemma FanoutStart(g: Graph, b: Behaviour, node: nat, m: Emission, tick: nat, r: Routed)
    requires r.items == [] && r.ok && r.tick == tick && r.events == []
    ensures FannedOut(g, b, node, m, tick, 0, r)
  {
    assert DigestOf(g, r.events) == NOTHING;
  }

  lemma FanoutUnfolds(g: Graph, b: Behaviour, node: nat, m: Emission, tick: nat, k: nat)
    requires 0 < k <= |g.edges|
    ensures var r := Fanout(g, b, node, m, tick, k - 1);
            Fanout(g, b, node, m, tick, k) ==
            if !r.ok || !Routes(g.edges[k - 1], node, m) then r else OneEdgeMore(g, b, m, k, r)
  {
  }

  lemma {:induction false} FanoutTells(g: Graph, b: Behaviour, node: nat, m: Emission, tick: nat, k: nat)
    requires k <= |g.edges|
    ensures FannedOut(g, b, node, m, tick, k, Fanout(g, b, node, m, tick, k))
  {
    if k == 0 {
      FanoutStart(g, b, node, m, tick, Fanout(g, b, node, m, tick, k));
    } else {
      var r := Fanout(g, b, node, m, tick, k - 1);
      FanoutTells(g, b, node, m, tick, k - 1);
      FanoutUnfolds(g, b, node, m, tick, k);
      if r.ok && Routes(g.edges[k - 1], node, m) { FanoutNext(g, b, node, m, tick, k, r); }
      else { FanoutPast(g, b, node, m, tick, k, r); }
    }
  }

  /** One emission: checked, and if its port accepts it shown to the port's edges. */
  predicate RoutesOne(g: Graph, node: nat, m: Emission, d: Digest, ok: bool) {
    && d == NOTHING.(asks := d.asks, delivered := d.delivered, checks := [Sent(node, m)])
    && (if ok then d.asks == AsksFor(g, node, m, |g.edges|) else d.asks <= AsksFor(g, node, m, |g.edges|))
  }

  lemma EmitTells(g: Graph, b: Behaviour, node: nat, m: Emission, tick: nat)
    ensures var r := Emit(g, b, node, m, tick); var d := DigestOf(g, r.events);
            Tells(g, b, r.events, tick, r.tick, r.ok) && d.delivered == r.items && RoutesOne(g, node, m, d, r.ok)
  {
    var check, r := PortCheck(node, m), Emit(g, b, node, m, tick);
    OneTells(g, b, check, tick);
    if PortAccepts(g, node, m) {
      var f := Fanout(g, b, node, m, tick, |g.edges|);
      FanoutTells(g, b, node, m, tick, |g.edges|);
      TellsMore(g, b, [check], f.events, tick, tick, r.tick, r.ok);
    }
  }

  /** Several emissions, up to the first abort. */
  predicate RoutesAll(g: Graph, node: nat, ms: seq<Emission>, d: Digest, ok: bool) {
    && d == NOTHING.(asks := d.asks, delivered := d.delivered, checks := d.checks)
    && (if ok then d.asks == AllAsks(g, node, ms) && d.checks == SentBy(node, ms)
        else d.asks <= AllAsks(g, node, ms) && d.checks <= SentBy(node, ms))
  }

  lemma RoutesMore(g: Graph, node: nat, ms: seq<Emission>, m: Emission, a: Digest, b: Digest, ok: bool)
    requires RoutesAll(g, node, ms, a, true) && RoutesOne(g, node, m, b, ok)
    ensures RoutesAll(g, node, ms + [m], Plus(a, b), ok)
  {
    assert (ms + [m])[..|ms|] == ms;
    assert SentBy(node, ms + [m]) == SentBy(node, ms) + [Sent(node, m)];
  }

  lemma RoutesLess(g: Graph, node: nat, ms: seq<Emission>, m: Emission, d: Digest)
    requires RoutesAll(g, node, ms, d, false)
    ensures RoutesAll(g, node, ms + [m], d, false)
  {
    assert (ms + [m])[..|ms|] == ms;
    assert SentBy(node, ms + [m]) == SentBy(node, ms) + [Sent(node, m)];
  }

  lemma {:induction false} EmitAllTells(g: Graph, b: Behaviour, node: nat, ms: seq<Emission>, tick: nat, k: nat)
    requires k <= |ms|
    ensures var r := EmitAll(g, b, node, ms, tick, k); var d := DigestOf(g, r.events);
            Tells(g, b, r.events, tick, r.tick, r.ok) && d.delivered == r.items && RoutesAll(g, node, ms[..k], d, r.ok)
  {
    if k > 0 {
      EmitAllTells(g, b, node, ms, tick, k - 1);
      assert ms[..k] == ms[..k - 1] + [ms[k - 1]];
      var r, all := EmitAll(g, b, node, ms, tick, k - 1), EmitAll(g, b, node, ms, tick, k);
      if r.ok {
        var e := Emit(g, b, node, ms[k - 1], r.tick);
        EmitTells(g, b, node, ms[k - 1], r.tick);
        TellsMore(g, b, r.events, e.events, tick, r.tick, all.tick, all.ok);
        RoutesMore(g, node, ms[..k - 1], ms[k - 1], DigestOf(g, r.events), DigestOf(g, e.events), e.ok);
      } else {
        RoutesLess(g, node, ms[..k - 1], ms[k - 1], DigestOf(g, r.events));
      }
    } else {
      assert ms[..0] == [];
    }
  }

  /** One process callback of `node`, and what followed from it. */
  predicate ProcessesOne(node: nat, d: Digest, items: seq<Item>, ok: bool) {
    && d.prepared == [] && d.processed == [node] && d.finished == [] && d.delivered == items
    && (if ok then Complete(d) else Partial(d))
  }

  lemma CallAndRoutes(g: Graph, node: nat, raw: seq<Emission>, d: Digest, items: seq<Item>, ok: bool)
    requires RoutesAll(g, node, Limited(raw), d, ok) && d.delivered == items
    ensures ProcessesOne(node, Plus(DigestOne(g, ProcessCall(node, Some(raw))), d), items, ok)
  {
  }

  /** The callback succeeded, and its emissions were routed. */
  lemma CalledGoesOn(g: Graph, b: Behaviour, node: nat, tick: nat, raw: seq<Emission>, r: Routed)
    requires b.process(tick) == Some(raw) && r == EmitAll(g, b, node, Limited(raw), tick + 1, |Limited(raw)|)
    ensures var events := [ProcessCall(node, Some(raw))] + r.events;
            Tells(g, b, events, tick, r.tick, r.ok) && ProcessesOne(node, DigestOf(g, events), r.items, r.ok)
  {
    var call, ms := ProcessCall(node, Some(raw)), Limited(raw);
    OneTells(g, b, call, tick);
    EmitAllTells(g, b, node, ms, tick + 1, |ms|);
    assert ms[..|ms|] == ms;
    TellsMore(g, b, [call], r.events, tick, tick + 1, r.tick, r.ok);
    CallAndRoutes(g, node, raw, DigestOf(g, r.events), r.items, r.ok);
  }

  /**
   What a process callback leads to: it goes on exactly if the callback succeeded and no check
   and no policy failed, stops at the first failure, and up to there checks every emission and
   shows it to every enabled edge of its port, in order.
   */
  lemma CalledTells(g: Graph, b: Behaviour, node: nat, tick: nat)
    ensures var r := Called(g, b, node, tick);
            Tells(g, b, r.events, tick, r.tick, r.ok) && ProcessesOne(node, DigestOf(g, r.events), r.items, r.ok)
  {
    if b.process(tick).Some? {
      var raw := b.process(tick).value;
      CalledGoesOn(g, b, node, tick, raw, EmitAll(g, b, node, Limited(raw), tick + 1, |Limited(raw)|));
    } else {
      OneTells(g, b, ProcessCall(node, None), tick);
    }
  }

  // ---------------------------------------------------------------- the runner's books

  /** The callbacks the runner has made of each kind, and the items it has put on a worklist. */
  datatype Books = Books(prepared: seq<nat>, processed: seq<nat>, finished: seq<nat>, delivered: seq<Item>)

  function BooksOf(d: Digest): Books {
    Books(d.prepared, d.processed, d.finished, d.delivered)
  }

  /**
   The log follows the behaviour from its first callback on and ends at its first failure, if
   there is one; the books are those the log tells of; and, up to a failure, every emission was
   checked and shown to every enabled edge of its port, in order.
   */
  ghost predicate Sound(g: Graph, b: Behaviour, log: seq<Event>, tick: nat, ok: bool, books: Books) {
    var d := DigestOf(g, log);
    && Tells(g, b, log, 0, tick, ok) && (if ok then Complete(d) else Partial(d))
    && books == BooksOf(d)
  }

  lemma NothingYet(g: Graph, b: Behaviour)
    ensures Sound(g, b, [], 0, true, Books([], [], [], []))
  {
    assert DigestOf(g, []) == NOTHING;
  }

  lemma DigestsAddUp(a: Digest, b: Digest, ok: bool)
    requires Complete(a) && (if ok then Complete(b) else Partial(b))
    ensures if ok then Complete(Plus(a, b)) else Partial(Plus(a, b))
  {
  }

  /** A sound log that goes on stays sound, and the books go on with it. */
  lemma SoundGoesOn(g: Graph, b: Behaviour, log: seq<Event>, more: seq<Event>, tick: nat, now: nat, ok: bool,
                    books: Books)
    requires Sound(g, b, log, tick, true, books) && Tells(g, b, more, tick, now, ok)
    requires var d := DigestOf(g, more); if ok then Complete(d) else Partial(d)
    ensures Sound(g, b, log + more, now, ok, BooksOf(Plus(DigestOf(g, log), DigestOf(g, more))))
  {
    TellsMore(g, b, log, more, 0, tick, now, ok);
    DigestsAddUp(DigestOf(g, log), DigestOf(g, more), ok);
  }

  lemma PrepareSounds(g: Graph, b: Behaviour, log: seq<Event>, tick: nat, books: Books, node: nat)
    requires Sound(g, b, log, tick, true, books)
    ensures Sound(g, b, log + [PrepareCall(node, b.prepare(tick))], tick + 1, b.prepare(tick),
                  books.(prepared := books.prepared + [node]))
  {
    var e := PrepareCall(node, b.prepare(tick));
    OneTells(g, b, e, tick);
    SoundGoesOn(g, b, log, [e], tick, tick + 1, b.prepare(tick), books);
    assert BooksOf(Plus(DigestOf(g, log), DigestOne(g, e))) == books.(prepared := books.prepared + [node]);
  }

  lemma FinishSounds(g: Graph, b: Behaviour, log: seq<Event>, tick: nat, books: Books, node: nat)
    requires Sound(g, b, log, tick, true, books)
    ensures Sound(g, b, log + [FinishCall(node, b.finish(tick))], tick + 1, b.finish(tick),
                  books.(finished := books.finished + [node]))
  {
    var e := FinishCall(node, b.finish(tick));
    OneTells(g, b, e, tick);
    SoundGoesOn(g, b, log, [e], tick, tick + 1, b.finish(tick), books);
    assert BooksOf(Plus(DigestOf(g, log), DigestOne(g, e))) == books.(finished := books.finished + [node]);
  }

  lemma BooksGoOn(a: Digest, b: Digest, node: nat, items: seq<Item>, ok: bool)
    requires ProcessesOne(node, b, items, ok)
    ensures BooksOf(Plus(a, b)) ==
            BooksOf(a).(processed := a.processed + [node], delivered := a.delivered + items)
  {
  }

  lemma ProcessSounds(g: Graph, b: Behaviour, log: seq<Event>, tick: nat, books: Books, node: nat, r: Routed)
    requires Sound(g, b, log, tick, true, books) && r == Called(g, b, node, tick)
    ensures Sound(g, b, log + r.events, r.tick, r.ok,
                  books.(processed := books.processed + [node], delivered := books.delivered + r.items))
  {
    CalledTells(g, b, node, tick);
    SoundGoesOn(g, b, log, r.events, tick, r.tick, r.ok, books);
    BooksGoOn(DigestOf(g, log), DigestOf(g, r.events), node, r.items, r.ok);
  }

  /** A run that never stopped heard of no failure; one that stopped heard of one, and nothing after it. */
  lemma SoundIsClean(g: Graph, b: Behaviour, log: seq<Event>, tick: nat, ok: bool, books: Books)
    requires Sound(g, b, log, tick, ok, books)
    ensures ok <==> Clean(g, log)
    ensures !ok ==> Broken(g, log)
  {
  }
}
