/**
 What the synchronous runner makes of a process callback: its emissions, checked against their
 output ports, are shown to every enabled edge of the port, whose policies decide. Callbacks
 answer arbitrarily: each answer is an arbitrary function of how many callbacks came before it.
 */
module SyncRouting {
  import opened Optional

  const EMISSION_LIMIT: nat := 16_384
  const SIGNAL_KIND: nat := 0

  datatype Frame = Frame(id: nat, kind: nat)
  datatype Emission = Emission(port: nat, frame: Frame)
  datatype Item = Item(node: nat, frame: Frame)

  /** An edge validates or transforms only if it names a policy for that. */
  datatype Edge = Edge(from: nat, port: nat, to: nat, kind: nat, enabled: bool, validates: bool, abortsOnReject: bool,
                       transforms: bool)

  datatype Output = Output(node: nat, port: nat)

  datatype Graph = Graph(sources: seq<bool>, outputs: map<Output, nat>, edges: seq<Edge>)

  predicate Acyclic(g: Graph) {
    forall i :: 0 <= i < |g.edges| ==> g.edges[i].from < g.edges[i].to < |g.sources|
  }

  datatype Validation = Accept | Reject | ValidationFails
  datatype Transform =
    | Forward(frame: Frame)
    | Replace(frame: Frame)
    | Drop
    | AbortRun
    | EmitSignal(frame: Frame)
    | TransformFails

  /** What the policy of an edge answers about one frame; `notified` is how its notification hook returned. */
  datatype Answer = Answer(validation: Validation, transform: Transform, notified: bool)

  datatype Behaviour = Behaviour(prepare: nat -> bool, process: nat -> Option<seq<Emission>>, finish: nat -> bool,
                                 edge: nat -> Answer)

  /** What the runner hears while it runs: the answer of a callback, or the port check of an emission. */
  datatype Event =
    | PrepareCall(node: nat, good: bool)
    | ProcessCall(node: nat, emitted: Option<seq<Emission>>)
    | PortCheck(node: nat, emission: Emission)
    | PolicyCall(edge: nat, frame: Frame, answer: Answer)
    | FinishCall(node: nat, good: bool)

  datatype Verdict = Delivers(frame: Frame) | Consumes | Aborts

  // ---------------------------------------------------------------- one frame on one edge

  function Apply(e: Edge, f: Frame, a: Answer): Verdict {
    if f.kind != e.kind then Aborts
    else if e.validates && a.validation.ValidationFails? then Aborts
    else if e.validates && a.validation.Reject? then (if e.abortsOnReject || !a.notified then Aborts else Consumes)
    else if !e.transforms then Delivers(f)
    else
      match a.transform
      case Forward(g) => if g == f then Delivers(g) else Aborts
      case Replace(g) => if g.id == f.id || g.kind != e.kind then Aborts else Delivers(g)
      case Drop => if a.notified then Consumes else Aborts
      case AbortRun => Aborts
      case EmitSignal(g) => if g.kind == SIGNAL_KIND && a.notified then Consumes else Aborts
      case TransformFails => Aborts
  }

  /** Whatever a policy answers, only frames of the edge's own type come through, and never a silently changed one. */
  lemma OnlyTypedFramesPass(e: Edge, f: Frame, a: Answer)
    requires Apply(e, f, a).Delivers?
    ensures f.kind == e.kind == Apply(e, f, a).frame.kind
    ensures Apply(e, f, a).frame == f || Apply(e, f, a).frame.id != f.id
  {
  }

  predicate Routes(e: Edge, node: nat, m: Emission) {
    e.enabled && e.from == node && e.port == m.port
  }

  /** The items delivered, whether nothing aborted, the number of callbacks so far, and what was heard. */
  datatype Routed = Routed(items: seq<Item>, ok: bool, tick: nat, events: seq<Event>)

  /** What the first k edges make of one emission, up to the first abort. */
  function Fanout(g: Graph, b: Behaviour, node: nat, m: Emission, tick: nat, k: nat): Routed
    requires k <= |g.edges|
  {
    if k == 0 then Routed([], true, tick, [])
    else
      var r := Fanout(g, b, node, m, tick, k - 1);
      var e := g.edges[k - 1];
      if !r.ok || !Routes(e, node, m) then r
      else
        var events := r.events + [PolicyCall(k - 1, m.frame, b.edge(r.tick))];
        match Apply(e, m.frame, b.edge(r.tick))
        case Delivers(f) => Routed(r.items + [Item(e.to, f)], true, r.tick + 1, events)
        case Consumes => Routed(r.items, true, r.tick + 1, events)
        case Aborts => Routed(r.items, false, r.tick + 1, events)
  }

  /** An emission through an undeclared port, or of the wrong type for it, aborts. */
  function Emit(g: Graph, b: Behaviour, node: nat, m: Emission, tick: nat): Routed {
    var output := Output(node, m.port);
    var check := [PortCheck(node, m)];
    if output !in g.outputs || g.outputs[output] != m.frame.kind then Routed([], false, tick, check)
    else
      var r := Fanout(g, b, node, m, tick, |g.edges|);
      r.(events := check + r.events)
  }

  /** The first k emissions, one after the other, up to the first abort. */
  function EmitAll(g: Graph, b: Behaviour, node: nat, ms: seq<Emission>, tick: nat, k: nat): Routed
    requires k <= |ms|
  {
    if k == 0 then Routed([], true, tick, [])
    else
      var r := EmitAll(g, b, node, ms, tick, k - 1);
      if !r.ok then r
      else
        var e := Emit(g, b, node, ms[k - 1], r.tick);
        Routed(r.items + e.items, e.ok, e.tick, r.events + e.events)
  }

  /** A callback's emissions are cut off at the limit. */
  function Limited(ms: seq<Emission>): (r: seq<Emission>)
    ensures r <= ms && |r| == if |ms| < 16_384 then |ms| else 16_384
  {
    if |ms| > EMISSION_LIMIT then ms[..EMISSION_LIMIT] else ms
  }

  /** What one process callback puts on the worklist. */
  function Called(g: Graph, b: Behaviour, node: nat, tick: nat): Routed {
    var call := [ProcessCall(node, b.process(tick))];
    match b.process(tick)
    case None => Routed([], false, tick + 1, call)
    case Some(ms) =>
      var r := EmitAll(g, b, node, Limited(ms), tick + 1, |Limited(ms)|);
      r.(events := call + r.events)
  }

  /** The edges of one output port, in order. */
  function Targets(g: Graph, node: nat, m: Emission, k: nat): seq<Item>
    requires k <= |g.edges|
  {
    if k == 0 then []
    else
      Targets(g, node, m, k - 1) + (if Routes(g.edges[k - 1], node, m) then [Item(g.edges[k - 1].to, m.frame)] else [])
  }

  predicate Plain(e: Edge) {
    !e.validates && !e.transforms
  }

  /** Without policies the frame itself goes along every enabled edge of its port, once, in edge order. */
  lemma {:induction false} PlainEdgesCopy(g: Graph, b: Behaviour, node: nat, m: Emission, tick: nat, k: nat)
    requires k <= |g.edges|
    requires forall i :: 0 <= i < k && Routes(g.edges[i], node, m) ==>
               Plain(g.edges[i]) && g.edges[i].kind == m.frame.kind
    ensures Fanout(g, b, node, m, tick, k).ok && Fanout(g, b, node, m, tick, k).items == Targets(g, node, m, k)
  {
    if k > 0 { PlainEdgesCopy(g, b, node, m, tick, k - 1); }
  }

  predicate CameAlong(g: Graph, node: nat, m: Emission, item: Item, j: nat) {
    j < |g.edges| && Routes(g.edges[j], node, m) && item.node == g.edges[j].to && item.frame.kind == g.edges[j].kind
  }

  /** Whatever policies answer, each delivered item came along an enabled edge of its port, typed for it. */
  lemma {:induction false} ItemsFollowEdges(g: Graph, b: Behaviour, node: nat, m: Emission, tick: nat, k: nat, i: nat)
    requires k <= |g.edges| && i < |Fanout(g, b, node, m, tick, k).items|
    ensures exists j: nat :: CameAlong(g, node, m, Fanout(g, b, node, m, tick, k).items[i], j)
  {
    var rest := Fanout(g, b, node, m, tick, k - 1);
    if i < |rest.items| {
      ItemsFollowEdges(g, b, node, m, tick, k - 1, i);
      assert Fanout(g, b, node, m, tick, k).items[i] == rest.items[i];
    } else {
      OnlyTypedFramesPass(g.edges[k - 1], m.frame, b.edge(rest.tick));
      assert CameAlong(g, node, m, Fanout(g, b, node, m, tick, k).items[i], k - 1);
    }
  }

  lemma {:induction false} AbortStays(g: Graph, b: Behaviour, node: nat, m: Emission, tick: nat, j: nat, k: nat)
    requires j <= k <= |g.edges| && !Fanout(g, b, node, m, tick, j).ok
    ensures Fanout(g, b, node, m, tick, k) == Fanout(g, b, node, m, tick, j)
    decreases k
  {
    if j < k { AbortStays(g, b, node, m, tick, j, k - 1); }
  }

  lemma {:induction false} EmitAllStays(g: Graph, b: Behaviour, node: nat, ms: seq<Emission>, tick: nat, j: nat, k: nat)
    requires j <= k <= |ms| && !EmitAll(g, b, node, ms, tick, j).ok
    ensures EmitAll(g, b, node, ms, tick, k) == EmitAll(g, b, node, ms, tick, j)
    decreases k
  {
    if j < k { EmitAllStays(g, b, node, ms, tick, j, k - 1); }
  }
}
