/** Validated construction of a graph, and what a built graph guarantees to the runtimes that execute it. */
module GraphBuilding {
  import opened Optional
  import opened FiniteSets
  import opened GraphOrder
  import RuntimeModel
  import SyncRouting

  type PortName = nat
  type FrameType = nat

  datatype Direction = Input | Output
  datatype Kind = SourceNode | TransformNode | SinkNode
  datatype Port = Port(owner: NodeId, name: PortName, direction: Direction, frameType: FrameType)
  datatype Node = Node(id: NodeId, kind: Kind, ports: seq<Port>, canProcess: bool)
  datatype Edge = Edge(id: EdgeId, fromNode: NodeId, fromPort: PortName, toNode: NodeId, toPort: PortName,
                       frameType: FrameType)

  datatype Role = AtSource | AtTarget

  datatype BuildError =
    | DuplicateNode(node: NodeId)
    | DuplicateEdge(edge: EdgeId)
    | PortNodeMismatch(node: NodeId, owner: NodeId, port: PortName)
    | DuplicatePort(node: NodeId, port: PortName, direction: Direction)
    | InvalidNodeKind(node: NodeId, kind: Kind)
    | ProcessCapabilityMissing(node: NodeId)
    | MissingNode(edge: EdgeId, role: Role, missing: NodeId)
    | MissingPort(edge: EdgeId, role: Role)
    | DirectionMismatch(edge: EdgeId, role: Role)
    | TypeMismatch(edge: EdgeId, sourceType: FrameType, targetType: FrameType)

  // ---------------------------------------------------------------- node validation

  predicate SamePort(p: Port, q: Port) {
    p.name == q.name && p.direction == q.direction
  }

  predicate PortFits(d: Node, i: nat)
    requires i < |d.ports|
  {
    var p := d.ports[i];
    && p.owner == d.id
    && (forall j :: 0 <= j < i ==> !SamePort(d.ports[j], p))
    && !(d.kind.SourceNode? && p.direction.Input?)
    && !(d.kind.SinkNode? && p.direction.Output?)
  }

  predicate NodeFits(d: Node) {
    d.canProcess && forall i :: 0 <= i < |d.ports| ==> PortFits(d, i)
  }

  function CheckPorts(d: Node, i: nat): (r: Option<BuildError>)
    requires i <= |d.ports|
    ensures r.None? <==> forall k :: i <= k < |d.ports| ==> PortFits(d, k)
    decreases |d.ports| - i
  {
    if i == |d.ports| then None
    else
      var p := d.ports[i];
      assert PortFits(d, i) || exists k :: i <= k < |d.ports| && !PortFits(d, k);
      if p.owner != d.id then Some(PortNodeMismatch(d.id, p.owner, p.name))
      else if exists j :: 0 <= j < i && SamePort(d.ports[j], p) then
        Some(DuplicatePort(d.id, p.name, p.direction))
      else if (d.kind.SourceNode? && p.direction.Input?) || (d.kind.SinkNode? && p.direction.Output?) then
        Some(InvalidNodeKind(d.id, d.kind))
      else CheckPorts(d, i + 1)
  }

  function ValidateNode(d: Node): (r: Option<BuildError>)
    ensures r.None? <==> NodeFits(d)
  {
    if !d.canProcess then Some(ProcessCapabilityMissing(d.id)) else CheckPorts(d, 0)
  }

  // ---------------------------------------------------------------- edge validation

  predicate IsPort(p: Port, name: PortName, direction: Direction) {
    p.name == name && p.direction == direction
  }

  function FirstPort(ports: seq<Port>, name: PortName, direction: Direction): (r: Option<Port>)
    ensures r.Some? <==> exists i :: 0 <= i < |ports| && IsPort(ports[i], name, direction)
    ensures r.Some? ==> r.value in ports && IsPort(r.value, name, direction)
  {
    if ports == [] then None
    else if IsPort(ports[0], name, direction) then Some(ports[0])
    else
      assert forall i :: 0 < i < |ports| ==> ports[i] == ports[1..][i - 1];
      FirstPort(ports[1..], name, direction)
  }

  /** Why a port lookup failed: the name exists in the other direction, or not at all. */
  function PortError(d: Node, name: PortName, e: Edge, role: Role): BuildError {
    if exists i :: 0 <= i < |d.ports| && d.ports[i].name == name then DirectionMismatch(e.id, role)
    else MissingPort(e.id, role)
  }

  predicate EdgeFits(nodes: map<NodeId, Node>, e: Edge) {
    && e.fromNode in nodes && e.toNode in nodes
    && FirstPort(nodes[e.fromNode].ports, e.fromPort, Output).Some?
    && FirstPort(nodes[e.toNode].ports, e.toPort, Input).Some?
    && FirstPort(nodes[e.fromNode].ports, e.fromPort, Output).value.frameType == e.frameType
    && FirstPort(nodes[e.toNode].ports, e.toPort, Input).value.frameType == e.frameType
  }

  function ValidateEdge(nodes: map<NodeId, Node>, e: Edge): (r: Option<BuildError>)
    ensures r.None? <==> EdgeFits(nodes, e)
  {
    if e.fromNode !in nodes then Some(MissingNode(e.id, AtSource, e.fromNode))
    else if e.toNode !in nodes then Some(MissingNode(e.id, AtTarget, e.toNode))
    else
      var source := FirstPort(nodes[e.fromNode].ports, e.fromPort, Output);
      var target := FirstPort(nodes[e.toNode].ports, e.toPort, Input);
      if source.None? then Some(PortError(nodes[e.fromNode], e.fromPort, e, AtSource))
      else if target.None? then Some(PortError(nodes[e.toNode], e.toPort, e, AtTarget))
      else if source.value.frameType != target.value.frameType || e.frameType != source.value.frameType then
        Some(TypeMismatch(e.id, source.value.frameType, target.value.frameType))
      else None
  }

  // ---------------------------------------------------------------- the builder

  function ArcsOf(edges: map<EdgeId, Edge>): Arcs {
    map e | e in edges :: Arc(edges[e].fromNode, edges[e].toNode)
  }

  /** Everything added so far passed validation against the nodes present now. */
  ghost predicate Consistent(nodes: map<NodeId, Node>, edges: map<EdgeId, Edge>) {
    && (forall n :: n in nodes ==> nodes[n].id == n && NodeFits(nodes[n]))
    && (forall e :: e in edges ==> edges[e].id == e && EdgeFits(nodes, edges[e]))
  }

  class GraphBuilder {
    var nodes: map<NodeId, Node>
    var edges: map<EdgeId, Edge>

    ghost predicate Valid()
      reads this
    {
      Consistent(nodes, edges)
    }

    constructor ()
      ensures Valid() && nodes == map[] && edges == map[]
    {
      nodes, edges := map[], map[];
    }

    method AddNode(d: Node) returns (error: Option<BuildError>)
      requires Valid()
      modifies this
      ensures Valid() && edges == old(edges)
      ensures error.None? <==> NodeFits(d) && d.id !in old(nodes)
      ensures nodes == if error.None? then old(nodes)[d.id := d] else old(nodes)
      ensures NodeFits(d) && d.id in old(nodes) ==> error == Some(DuplicateNode(d.id))
    {
      error := ValidateNode(d);
      if error.Some? {
        return;
      }
      if d.id in nodes {
        return Some(DuplicateNode(d.id));
      }
      nodes := nodes[d.id := d];
    }

    method Connect(e: Edge) returns (error: Option<BuildError>)
      requires Valid()
      modifies this
      ensures Valid() && nodes == old(nodes)
      ensures error.None? <==> e.id !in old(edges) && EdgeFits(nodes, e)
      ensures edges == if error.None? then old(edges)[e.id := e] else old(edges)
      ensures e.id in old(edges) ==> error == Some(DuplicateEdge(e.id))
    {
      if e.id in edges {
        return Some(DuplicateEdge(e.id));
      }
      error := ValidateEdge(nodes, e);
      if error.None? {
        edges := edges[e.id := e];
      }
    }

    method Build() returns (r: BuildResult)
      requires Valid()
      ensures r.Order? <==> !HasCycle(ArcsOf(edges))
      ensures r.Order? ==> Topological(nodes.Keys, ArcsOf(edges), r.order) && Greedy(nodes.Keys, ArcsOf(edges), r.order)
      ensures r.Cycle? ==> forall n :: n in r.nodes <==> n in nodes && Tainted(ArcsOf(edges), n)
    {
      r := StableTopologicalOrder(nodes.Keys, ArcsOf(edges));
    }
  }

  // ---------------------------------------------------------------- what the runtimes rely on

  ghost predicate ArcOf(order: seq<NodeId>, e: Edge, a: RuntimeModel.Arc) {
    && e.fromNode in order && e.toNode in order
    && a.src == Position(order, e.fromNode) && a.dst == Position(order, e.toNode)
  }

  ghost predicate HasEdge(edges: map<EdgeId, Edge>, order: seq<NodeId>, a: RuntimeModel.Arc) {
    exists e :: e in edges && ArcOf(order, edges[e], a)
  }

  /**
   A concurrent-runtime network laid out by build order: each arc is an edge seen through the
   positions of its ends.
   */
  ghost predicate LaidOut(nodes: map<NodeId, Node>, edges: map<EdgeId, Edge>, order: seq<NodeId>,
                          net: RuntimeModel.Net) {
    && net.nodes == |order| == |net.source|
    && (forall i :: 0 <= i < |order| ==> order[i] in nodes && net.source[i] == nodes[order[i]].kind.SourceNode?)
    && (forall a :: 0 <= a < |net.arcs| ==>
          net.arcs[a].capacity > 0 && HasEdge(edges, order, net.arcs[a]))
  }

  lemma PositionIsUnique(order: seq<NodeId>, i: nat)
    requires Distinct(order) && i < |order|
    ensures Position(order, order[i]) == i
  {
    assert order[Position(order, order[i])] == order[i];
  }

  lemma EdgePointsForward(nodes: set<NodeId>, arcs: Arcs, order: seq<NodeId>, e: EdgeId)
    requires Topological(nodes, arcs, order) && Closed(nodes, arcs) && e in arcs
    ensures arcs[e].from in order && arcs[e].to in order && Position(order, arcs[e].from) < Position(order, arcs[e].to)
  {
    assert arcs[e].from in Elements(order) && arcs[e].to in Elements(order);
    var i := Position(order, arcs[e].to);
    assert Released(arcs, order[..i], order[i]);
    var j :| 0 <= j < i && order[..i][j] == arcs[e].from;
    PositionIsUnique(order, j);
  }

  lemma TargetIsNoSource(nodes: map<NodeId, Node>, edges: map<EdgeId, Edge>, e: EdgeId)
    requires Consistent(nodes, edges) && e in edges
    ensures edges[e].toNode in nodes && !nodes[edges[e].toNode].kind.SourceNode?
  {
    var d := nodes[edges[e].toNode];
    var p := FirstPort(d.ports, edges[e].toPort, Input).value;
    var i :| 0 <= i < |d.ports| && d.ports[i] == p;
    assert PortFits(d, i);
  }

  /** Laying a built graph out by its order always gives the concurrent runtime a well-formed network. */
  lemma BuiltGraphIsWellFormed(nodes: map<NodeId, Node>, edges: map<EdgeId, Edge>, order: seq<NodeId>,
                               net: RuntimeModel.Net)
    requires Consistent(nodes, edges) && Topological(nodes.Keys, ArcsOf(edges), order)
    requires LaidOut(nodes, edges, order, net)
    ensures RuntimeModel.WellFormed(net)
  {
    forall a | 0 <= a < |net.arcs| ensures RuntimeModel.WellFormedArc(net, net.arcs[a]) {
      assert HasEdge(edges, order, net.arcs[a]);
      var e :| e in edges && ArcOf(order, edges[e], net.arcs[a]);
      EdgePointsForward(nodes.Keys, ArcsOf(edges), order, e);
      TargetIsNoSource(nodes, edges, e);
    }
  }

  ghost predicate RunnerEdgeOf(order: seq<NodeId>, e: Edge, r: SyncRouting.Edge) {
    && e.fromNode in order && e.toNode in order
    && r.from == Position(order, e.fromNode) && r.to == Position(order, e.toNode)
  }

  ghost predicate HasRunnerEdge(edges: map<EdgeId, Edge>, order: seq<NodeId>, r: SyncRouting.Edge) {
    exists e :: e in edges && RunnerEdgeOf(order, edges[e], r)
  }

  /** And it always gives the synchronous runner an acyclic one, on which its termination rests. */
  lemma BuiltGraphIsAcyclic(nodes: map<NodeId, Node>, edges: map<EdgeId, Edge>, order: seq<NodeId>,
                            g: SyncRouting.Graph)
    requires Consistent(nodes, edges) && Topological(nodes.Keys, ArcsOf(edges), order) && |g.sources| == |order|
    requires forall i :: 0 <= i < |g.edges| ==> HasRunnerEdge(edges, order, g.edges[i])
    ensures SyncRouting.Acyclic(g)
  {
    forall i | 0 <= i < |g.edges| ensures g.edges[i].from < g.edges[i].to < |g.sources| {
      assert HasRunnerEdge(edges, order, g.edges[i]);
      var e :| e in edges && RunnerEdgeOf(order, edges[e], g.edges[i]);
      EdgePointsForward(nodes.Keys, ArcsOf(edges), order, e);
    }
  }
}
