/**
 The build order of a graph: a topological sort that always takes the smallest ready
 identifier. Identifiers are ordered; naturals stand for them. Edges keep their own
 identity, so parallel edges and self-loops are distinct entries.
 */
module GraphOrder {
  import opened SmallestFirst
  import opened FiniteSets

  type NodeId = nat
  type EdgeId = nat

  datatype Arc = Arc(from: NodeId, to: NodeId)
  type Arcs = map<EdgeId, Arc>

  datatype BuildResult = Order(order: seq<NodeId>) | Cycle(nodes: set<NodeId>)

  predicate Closed(nodes: set<NodeId>, arcs: Arcs) {
    forall e :: e in arcs ==> arcs[e].from in nodes && arcs[e].to in nodes
  }

  // ---------------------------------------------------------------- what an order should be

  function Elements(s: seq<NodeId>): set<NodeId> {
    set n | n in s
  }

  /** Every predecessor of `n` has already been placed. */
  predicate Released(arcs: Arcs, placed: seq<NodeId>, n: NodeId) {
    forall e :: e in arcs && arcs[e].to == n ==> arcs[e].from in placed
  }

  /** A permutation of the nodes in which every edge points forward. */
  predicate Topological(nodes: set<NodeId>, arcs: Arcs, order: seq<NodeId>) {
    && Distinct(order) && Elements(order) == nodes
    && forall i :: 0 <= i < |order| ==> Released(arcs, order[..i], order[i])
  }

  predicate LexLess(a: seq<NodeId>, b: seq<NodeId>) {
    exists k :: 0 <= k < |a| && k < |b| && a[..k] == b[..k] && a[k] < b[k]
  }

  /** `n` could be placed next after `placed`. */
  predicate Available(nodes: set<NodeId>, arcs: Arcs, placed: seq<NodeId>, n: NodeId) {
    n in nodes && n !in placed && Released(arcs, placed, n)
  }

  /** Each entry is the smallest identifier that could have been placed there. */
  predicate Greedy(nodes: set<NodeId>, arcs: Arcs, order: seq<NodeId>) {
    forall i :: 0 <= i < |order| ==>
      Available(nodes, arcs, order[..i], order[i])
      && forall m :: Available(nodes, arcs, order[..i], m) ==> order[i] <= m
  }

  // ---------------------------------------------------------------- cycles

  predicate Adjacent(arcs: Arcs, a: NodeId, b: NodeId) {
    exists e :: e in arcs && arcs[e] == Arc(a, b)
  }

  predicate Walk(arcs: Arcs, w: seq<NodeId>) {
    |w| > 0 && forall i :: 0 <= i < |w| - 1 ==> Adjacent(arcs, w[i], w[i + 1])
  }

  ghost predicate OnCycle(arcs: Arcs, n: NodeId) {
    exists w :: Walk(arcs, w) && |w| > 1 && w[0] == n && w[|w| - 1] == n
  }

  /** `n` lies on a directed cycle or can be reached from one. */
  ghost predicate Tainted(arcs: Arcs, n: NodeId) {
    exists w :: Walk(arcs, w) && OnCycle(arcs, w[0]) && w[|w| - 1] == n
  }

  ghost predicate HasCycle(arcs: Arcs) {
    exists n :: OnCycle(arcs, n)
  }

  // ---------------------------------------------------------------- the greedy order is the least one

  lemma GreedyIsTopological(nodes: set<NodeId>, arcs: Arcs, order: seq<NodeId>)
    requires Greedy(nodes, arcs, order) && nodes <= Elements(order)
    ensures Topological(nodes, arcs, order)
  {
    forall i, j | 0 <= i < j < |order| ensures order[i] != order[j] {
      assert order[j] !in order[..j] && order[i] in order[..j];
    }
  }

  /** No topological order is lexicographically smaller, and only the greedy order itself is not larger. */
  lemma GreedyIsLeast(nodes: set<NodeId>, arcs: Arcs, order: seq<NodeId>, other: seq<NodeId>)
    requires Greedy(nodes, arcs, order) && Topological(nodes, arcs, order) && Topological(nodes, arcs, other)
    ensures other == order || LexLess(order, other)
  {
    SameLength(order, other);
    if other != order {
      var k := FirstDifference(order, other);
      assert other[k] !in other[..k];
      assert Available(nodes, arcs, order[..k], other[k]);
    }
  }

  lemma {:induction false} ElementCount(s: seq<NodeId>)
    requires Distinct(s)
    ensures |Elements(s)| == |s|
  {
    if |s| > 0 {
      var last := |s| - 1;
      ElementCount(s[..last]);
      assert s == s[..last] + [s[last]];
      assert Elements(s) == Elements(s[..last]) + {s[last]};
    }
  }

  lemma SameLength(a: seq<NodeId>, b: seq<NodeId>)
    requires Distinct(a) && Distinct(b) && Elements(a) == Elements(b)
    ensures |a| == |b|
  {
    ElementCount(a);
    ElementCount(b);
  }

  lemma FirstDifference(a: seq<NodeId>, b: seq<NodeId>) returns (k: nat)
    requires |a| == |b| && a != b
    ensures k < |a| && a[..k] == b[..k] && a[k] != b[k]
  {
    k := 0;
    while a[k] == b[k]
      invariant k < |a| && a[..k] == b[..k]
      invariant exists m :: k <= m < |a| && a[m] != b[m]
      decreases |a| - k
    {
      k := k + 1;
    }
  }

  /** The order depends only on which nodes are adjacent, not on edge names, multiplicity or insertion order. */
  lemma OrderIsCanonical(nodes: set<NodeId>, arcs: Arcs, arcs': Arcs, order: seq<NodeId>, order': seq<NodeId>)
    requires Greedy(nodes, arcs, order) && Topological(nodes, arcs, order)
    requires Greedy(nodes, arcs', order') && Topological(nodes, arcs', order')
    requires forall a, b :: Adjacent(arcs, a, b) <==> Adjacent(arcs', a, b)
    ensures order == order'
  {
    forall placed, n ensures Released(arcs, placed, n) == Released(arcs', placed, n) {
      SameReleased(arcs, arcs', placed, n);
      SameReleased(arcs', arcs, placed, n);
    }
    SameLength(order, order');
    if order != order' {
      var k := FirstDifference(order, order');
      assert Available(nodes, arcs', order'[..k], order[k]);
      assert Available(nodes, arcs, order[..k], order'[k]);
    }
  }

  lemma SameReleased(arcs: Arcs, arcs': Arcs, placed: seq<NodeId>, n: NodeId)
    requires forall a, b :: Adjacent(arcs, a, b) <==> Adjacent(arcs', a, b)
    ensures Released(arcs, placed, n) ==> Released(arcs', placed, n)
  {
    forall e | e in arcs' && arcs'[e].to == n && Released(arcs, placed, n) ensures arcs'[e].from in placed {
      assert arcs'[e] == Arc(arcs'[e].from, n) && Adjacent(arcs', arcs'[e].from, n);
      assert Adjacent(arcs, arcs'[e].from, n);
    }
  }

  // ---------------------------------------------------------------- the leftover nodes are the tainted ones

  /** `placed` is closed under predecessors and every other node still waits for one that is not placed. */
  predicate Exhausted(nodes: set<NodeId>, arcs: Arcs, placed: seq<NodeId>) {
    && (forall i :: 0 <= i < |placed| ==> Released(arcs, placed[..i], placed[i]))
    && (forall n {:trigger Waits(arcs, placed, n)} :: n in nodes && n !in placed ==> Waits(arcs, placed, n))
  }

  predicate Waits(arcs: Arcs, placed: seq<NodeId>, n: NodeId) {
    exists e :: e in arcs && arcs[e].to == n && arcs[e].from !in placed
  }

  /** Position of a placed node. */
  function Position(placed: seq<NodeId>, n: NodeId): (i: nat)
    requires n in placed
    ensures i < |placed| && placed[i] == n
  {
    if placed[0] == n then 0 else 1 + Position(placed[1..], n)
  }

  /** Walking backwards from a placed node stays placed, at strictly earlier positions. */
  lemma {:induction false} PlacedWalk(nodes: set<NodeId>, arcs: Arcs, placed: seq<NodeId>, w: seq<NodeId>)
    requires Exhausted(nodes, arcs, placed) && Distinct(placed) && Walk(arcs, w) && w[|w| - 1] in placed
    ensures w[0] in placed
    ensures |w| > 1 ==> Position(placed, w[0]) < Position(placed, w[|w| - 1])
    decreases |w|
  {
    if |w| > 1 {
      var before := w[..|w| - 1];
      var n, p := w[|w| - 1], w[|w| - 2];
      assert Adjacent(arcs, w[|w| - 2], w[|w| - 2 + 1]);
      var i := Position(placed, n);
      assert Released(arcs, placed[..i], placed[i]);
      assert p in placed[..i];
      var j :| 0 <= j < i && placed[j] == p;
      assert Position(placed, p) == j;
      PlacedWalk(nodes, arcs, placed, before);
    }
  }

  lemma TaintedIsUnplaced(nodes: set<NodeId>, arcs: Arcs, placed: seq<NodeId>, n: NodeId)
    requires Exhausted(nodes, arcs, placed) && Distinct(placed) && Tainted(arcs, n)
    ensures n !in placed
  {
    if n in placed {
      var w :| Walk(arcs, w) && OnCycle(arcs, w[0]) && w[|w| - 1] == n;
      PlacedWalk(nodes, arcs, placed, w);
      var c :| Walk(arcs, c) && |c| > 1 && c[0] == w[0] && c[|c| - 1] == w[0];
      PlacedWalk(nodes, arcs, placed, c);
      assert false;
    }
  }

  lemma WalkSnoc(arcs: Arcs, w: seq<NodeId>, n: NodeId)
    requires Walk(arcs, w) && Adjacent(arcs, w[|w| - 1], n)
    ensures Walk(arcs, w + [n])
  {
    var longer := w + [n];
    forall i | 0 <= i < |longer| - 1 ensures Adjacent(arcs, longer[i], longer[i + 1]) {
      if i < |w| - 1 {
        assert Adjacent(arcs, w[i], w[i + 1]);
      }
    }
  }

  lemma WalkSlice(arcs: Arcs, w: seq<NodeId>, from: nat, to: nat)
    requires Walk(arcs, w) && from < to <= |w|
    ensures Walk(arcs, w[from..to])
  {
    var part := w[from..to];
    forall i | 0 <= i < |part| - 1 ensures Adjacent(arcs, part[i], part[i + 1]) {
      assert Adjacent(arcs, w[from + i], w[from + i + 1]);
    }
  }

  /** From an unplaced node one can walk backwards through unplaced nodes for as long as one likes. */
  lemma {:induction false} BackwardWalk(nodes: set<NodeId>, arcs: Arcs, placed: seq<NodeId>, n: NodeId, length: nat)
    returns (w: seq<NodeId>)
    requires Closed(nodes, arcs) && Exhausted(nodes, arcs, placed) && n in nodes && n !in placed
    ensures Walk(arcs, w) && |w| == length + 1 && w[length] == n
    ensures forall i :: 0 <= i < |w| ==> w[i] in nodes
    decreases length
  {
    if length == 0 {
      w := [n];
    } else {
      assert Waits(arcs, placed, n);
      var e :| e in arcs && arcs[e].to == n && arcs[e].from !in placed;
      var p := arcs[e].from;
      var rest := BackwardWalk(nodes, arcs, placed, p, length - 1);
      w := rest + [n];
      assert arcs[e] == Arc(p, n);
      WalkSnoc(arcs, rest, n);
    }
  }

  lemma Pigeonhole(nodes: set<NodeId>, w: seq<NodeId>) returns (i: nat, j: nat)
    requires |w| > |nodes| && forall i :: 0 <= i < |w| ==> w[i] in nodes
    ensures i < j < |w| && w[i] == w[j]
  {
    if Distinct(w) {
      ElementCount(w);
      SubsetSize(Elements(w), nodes);
      assert false;
    }
    i, j :| 0 <= i < j < |w| && w[i] == w[j];
  }

  lemma UnplacedIsTainted(nodes: set<NodeId>, arcs: Arcs, placed: seq<NodeId>, n: NodeId)
    requires Closed(nodes, arcs) && Exhausted(nodes, arcs, placed) && n in nodes && n !in placed
    ensures Tainted(arcs, n) && HasCycle(arcs)
  {
    var w := BackwardWalk(nodes, arcs, placed, n, |nodes|);
    var i, j := Pigeonhole(nodes, w);
    var c, r := w[i..j + 1], w[i..|w|];
    WalkSlice(arcs, w, i, j + 1);
    WalkSlice(arcs, w, i, |w|);
    assert OnCycle(arcs, r[0]);
  }

  // ---------------------------------------------------------------- the algorithm

  /** Edges into `n` that still count: not yet removed together with their placed source. */
  function Counted(arcs: Arcs, removed: set<EdgeId>, n: NodeId): set<EdgeId> {
    set e | e in arcs && arcs[e].to == n && e !in removed
  }

  function Leaving(arcs: Arcs, n: NodeId): set<EdgeId> {
    set e | e in arcs && arcs[e].from == n
  }

  /** `indegree` holds, for every node, how many edges into it still count. */
  ghost predicate Counts(nodes: set<NodeId>, arcs: Arcs, removed: set<EdgeId>, indegree: map<NodeId, nat>) {
    indegree.Keys == nodes && forall n :: n in nodes ==> indegree[n] == |Counted(arcs, removed, n)|
  }

  /** `targets` lists, edge by edge, where the edges `ids` lead. */
  ghost predicate Lists(arcs: Arcs, ids: seq<EdgeId>, targets: seq<NodeId>) {
    && |ids| == |targets| && Distinct(ids)
    && forall i :: 0 <= i < |ids| ==> ids[i] in arcs && arcs[ids[i]].to == targets[i]
  }

  lemma CountedLess(arcs: Arcs, removed: set<EdgeId>, e: EdgeId, n: NodeId)
    requires e in arcs && e !in removed
    ensures Counted(arcs, removed + {e}, n) == Counted(arcs, removed, n) - {e}
    ensures |Counted(arcs, removed + {e}, n)| == |Counted(arcs, removed, n)| - (if arcs[e].to == n then 1 else 0)
  {
    assert Counted(arcs, removed + {e}, n) == Counted(arcs, removed, n) - {e};
  }

  lemma CountNothing(nodes: set<NodeId>, arcs: Arcs, indegree: map<NodeId, nat>)
    requires indegree.Keys == nodes && forall n :: n in nodes ==> indegree[n] == 0
    ensures Counts(nodes, arcs, arcs.Keys, indegree)
  {
    forall n ensures Counted(arcs, arcs.Keys, n) == {} {
    }
  }

  lemma CountOneMore(nodes: set<NodeId>, arcs: Arcs, rest: set<EdgeId>, e: EdgeId, indegree: map<NodeId, nat>)
    requires Closed(nodes, arcs) && e in rest && rest <= arcs.Keys && Counts(nodes, arcs, rest, indegree)
    ensures Counts(nodes, arcs, rest - {e}, indegree[arcs[e].to := indegree[arcs[e].to] + 1])
  {
    var less := rest - {e};
    assert less + {e} == rest;
    var after := indegree[arcs[e].to := indegree[arcs[e].to] + 1];
    forall n | n in nodes ensures after[n] == |Counted(arcs, less, n)| {
      CountedLess(arcs, less, e, n);
    }
  }

  lemma CountOneLess(nodes: set<NodeId>, arcs: Arcs, gone: set<EdgeId>, e: EdgeId, indegree: map<NodeId, nat>)
    requires Closed(nodes, arcs) && e in arcs && e !in gone && Counts(nodes, arcs, gone, indegree)
    ensures indegree[arcs[e].to] > 0
    ensures Counts(nodes, arcs, gone + {e}, indegree[arcs[e].to := indegree[arcs[e].to] - 1])
  {
    assert e in Counted(arcs, gone, arcs[e].to);
    var more := gone + {e};
    var after := indegree[arcs[e].to := indegree[arcs[e].to] - 1];
    forall n | n in nodes ensures after[n] == |Counted(arcs, more, n)| {
      CountedLess(arcs, gone, e, n);
    }
  }

  /** Edge lists so far: exactly the edges leaving each node that are not in `rest`. */
  ghost predicate ListsBut(nodes: set<NodeId>, arcs: Arcs, rest: set<EdgeId>,
                           outgoing: map<NodeId, seq<NodeId>>, ids: map<NodeId, seq<EdgeId>>) {
    && outgoing.Keys == nodes && ids.Keys == nodes
    && forall n :: n in nodes ==> Lists(arcs, ids[n], outgoing[n]) && Elements(ids[n]) == Leaving(arcs, n) - rest
  }

  lemma ListOneMore(nodes: set<NodeId>, arcs: Arcs, rest: set<EdgeId>, e: EdgeId,
                    outgoing: map<NodeId, seq<NodeId>>, ids: map<NodeId, seq<EdgeId>>)
    requires Closed(nodes, arcs) && e in rest && rest <= arcs.Keys && ListsBut(nodes, arcs, rest, outgoing, ids)
    ensures var a := arcs[e];
            ListsBut(nodes, arcs, rest - {e}, outgoing[a.from := outgoing[a.from] + [a.to]],
                     ids[a.from := ids[a.from] + [e]])
  {
    var a := arcs[e];
    var longer := ids[a.from] + [e];
    assert e !in Elements(ids[a.from]);
    assert Elements(longer) == Elements(ids[a.from]) + {e} == Leaving(arcs, a.from) - (rest - {e});
    assert Lists(arcs, longer, outgoing[a.from] + [a.to]);
    forall n | n in nodes && n != a.from ensures Elements(ids[n]) == Leaving(arcs, n) - (rest - {e}) {
    }
  }

  /** The first pass so far: everything but the edges in `rest` has been counted and listed. */
  ghost predicate TabulatedBut(nodes: set<NodeId>, arcs: Arcs, rest: set<EdgeId>, indegree: map<NodeId, nat>,
                               outgoing: map<NodeId, seq<NodeId>>, ids: map<NodeId, seq<EdgeId>>) {
    rest <= arcs.Keys && Counts(nodes, arcs, rest, indegree) && ListsBut(nodes, arcs, rest, outgoing, ids)
  }

  lemma TabulateNothing(nodes: set<NodeId>, arcs: Arcs, indegree: map<NodeId, nat>,
                        outgoing: map<NodeId, seq<NodeId>>, ids: map<NodeId, seq<EdgeId>>)
    requires indegree.Keys == outgoing.Keys == ids.Keys == nodes
    requires forall n :: n in nodes ==> indegree[n] == 0 && outgoing[n] == [] && ids[n] == []
    ensures TabulatedBut(nodes, arcs, arcs.Keys, indegree, outgoing, ids)
  {
    CountNothing(nodes, arcs, indegree);
  }

  lemma TabulateOneMore(nodes: set<NodeId>, arcs: Arcs, rest: set<EdgeId>, e: EdgeId, indegree: map<NodeId, nat>,
                        outgoing: map<NodeId, seq<NodeId>>, ids: map<NodeId, seq<EdgeId>>)
    requires Closed(nodes, arcs) && e in rest && TabulatedBut(nodes, arcs, rest, indegree, outgoing, ids)
    ensures var a := arcs[e];
            a.to in indegree && a.from in outgoing && a.from in ids
            && TabulatedBut(nodes, arcs, rest - {e}, indegree[a.to := indegree[a.to] + 1],
                            outgoing[a.from := outgoing[a.from] + [a.to]], ids[a.from := ids[a.from] + [e]])
  {
    CountOneMore(nodes, arcs, rest, e, indegree);
    ListOneMore(nodes, arcs, rest, e, outgoing, ids);
  }

  /** One edge is counted at its target and listed at its source. */
  method TabulateEdge(nodes: set<NodeId>, arcs: Arcs, ghost rest: set<EdgeId>, e: EdgeId, indegree: map<NodeId, nat>,
                      outgoing: map<NodeId, seq<NodeId>>, ghost ids: map<NodeId, seq<EdgeId>>)
    returns (indegree': map<NodeId, nat>, outgoing': map<NodeId, seq<NodeId>>, ghost ids': map<NodeId, seq<EdgeId>>)
    requires Closed(nodes, arcs) && e in rest && TabulatedBut(nodes, arcs, rest, indegree, outgoing, ids)
    ensures TabulatedBut(nodes, arcs, rest - {e}, indegree', outgoing', ids')
    ensures Counts(nodes, arcs, rest - {e}, indegree') && outgoing'.Keys == nodes
  {
    TabulateOneMore(nodes, arcs, rest, e, indegree, outgoing, ids);
    var a := arcs[e];
    indegree' := indegree[a.to := indegree[a.to] + 1];
    outgoing' := outgoing[a.from := outgoing[a.from] + [a.to]];
    ids' := ids[a.from := ids[a.from] + [e]];
  }

  /** The first pass: indegrees and outgoing target lists, edge by edge in identifier order. */
  method Tabulate(nodes: set<NodeId>, arcs: Arcs)
    returns (indegree: map<NodeId, nat>, outgoing: map<NodeId, seq<NodeId>>, ghost ids: map<NodeId, seq<EdgeId>>)
    requires Closed(nodes, arcs)
    ensures Counts(nodes, arcs, {}, indegree)
    ensures ListsBut(nodes, arcs, {}, outgoing, ids)
  {
    indegree := map n | n in nodes :: 0;
    outgoing := map n | n in nodes :: [];
    ids := map n | n in nodes :: [];
    var rest := arcs.Keys;
    TabulateNothing(nodes, arcs, indegree, outgoing, ids);
    while rest != {}
      invariant TabulatedBut(nodes, arcs, rest, indegree, outgoing, ids)
      decreases rest
    {
      var e := Least(rest);
      indegree, outgoing, ids := TabulateEdge(nodes, arcs, rest, e, indegree, outgoing, ids);
      rest := rest - {e};
    }
  }

  ghost predicate ReadyIs(nodes: set<NodeId>, placed: set<NodeId>, indegree: map<NodeId, nat>, ready: set<NodeId>)
    requires indegree.Keys == nodes
  {
    forall n :: n in ready <==> n in nodes && n !in placed && indegree[n] == 0
  }

  lemma NextUnlisted(ids: seq<EdgeId>, i: nat, removed: set<EdgeId>)
    requires i < |ids| && Distinct(ids) && Elements(ids) !! removed
    ensures ids[i] !in removed + Elements(ids[..i])
    ensures removed + Elements(ids[..i + 1]) == removed + Elements(ids[..i]) + {ids[i]}
  {
    assert ids[i] in Elements(ids);
    assert ids[..i + 1] == ids[..i] + [ids[i]];
  }

  ghost predicate Settled(nodes: set<NodeId>, placed: set<NodeId>, indegree: map<NodeId, nat>)
    requires indegree.Keys == nodes
  {
    forall n :: n in placed && n in nodes ==> indegree[n] == 0
  }

  /** Where the loop stands once the edges in `gone` are removed. */
  ghost predicate Standing(nodes: set<NodeId>, arcs: Arcs, gone: set<EdgeId>, placed: set<NodeId>,
                           indegree: map<NodeId, nat>, ready: set<NodeId>) {
    && Counts(nodes, arcs, gone, indegree)
    && ReadyIs(nodes, placed, indegree, ready) && Settled(nodes, placed, indegree)
  }

  /** Counting one edge less at `target` can make that node ready and no other. */
  lemma ReadyAfter(nodes: set<NodeId>, placed: set<NodeId>, target: NodeId, indegree: map<NodeId, nat>,
                   after: map<NodeId, nat>, ready: set<NodeId>)
    requires indegree.Keys == nodes == after.Keys && target in nodes && indegree[target] > 0
    requires after == indegree[target := indegree[target] - 1]
    requires ReadyIs(nodes, placed, indegree, ready) && Settled(nodes, placed, indegree)
    ensures ReadyIs(nodes, placed, after, if after[target] == 0 then ready + {target} else ready)
    ensures Settled(nodes, placed, after)
  {
    assert forall n :: n in nodes && n != target ==> after[n] == indegree[n];
  }

  lemma RemoveOne(nodes: set<NodeId>, arcs: Arcs, gone: set<EdgeId>, placed: set<NodeId>, e: EdgeId,
                  indegree: map<NodeId, nat>, ready: set<NodeId>)
    requires Closed(nodes, arcs) && e in arcs && e !in gone && Standing(nodes, arcs, gone, placed, indegree, ready)
    ensures indegree[arcs[e].to] > 0
    ensures var after := indegree[arcs[e].to := indegree[arcs[e].to] - 1];
            Standing(nodes, arcs, gone + {e}, placed, after,
                     if after[arcs[e].to] == 0 then ready + {arcs[e].to} else ready)
  {
    var target := arcs[e].to;
    CountOneLess(nodes, arcs, gone, e, indegree);
    ReadyAfter(nodes, placed, target, indegree, indegree[target := indegree[target] - 1], ready);
  }

  /** One outgoing edge less; its target becomes ready when its count reaches zero. */
  method ReleaseEdge(nodes: set<NodeId>, arcs: Arcs, ghost gone: set<EdgeId>, ghost placed: set<NodeId>,
                     ghost e: EdgeId, target: NodeId, indegree: map<NodeId, nat>, ready: set<NodeId>)
    returns (indegree': map<NodeId, nat>, ready': set<NodeId>)
    requires Closed(nodes, arcs) && e in arcs && e !in gone && target == arcs[e].to
    requires Standing(nodes, arcs, gone, placed, indegree, ready)
    ensures Standing(nodes, arcs, gone + {e}, placed, indegree', ready')
  {
    RemoveOne(nodes, arcs, gone, placed, e, indegree, ready);
    indegree' := indegree[target := indegree[target] - 1];
    ready' := if indegree'[target] == 0 then ready + {target} else ready;
  }

  /** Placing a node removes its outgoing edges one by one; a target whose count reaches zero becomes ready. */
  method Release(nodes: set<NodeId>, arcs: Arcs, targets: seq<NodeId>, ghost ids: seq<EdgeId>,
                 ghost removed: set<EdgeId>, ghost placed: set<NodeId>, indegree: map<NodeId, nat>, ready: set<NodeId>)
    returns (indegree': map<NodeId, nat>, ready': set<NodeId>)
    requires Closed(nodes, arcs) && Lists(arcs, ids, targets) && Elements(ids) !! removed
    requires Standing(nodes, arcs, removed, placed, indegree, ready)
    ensures Standing(nodes, arcs, removed + Elements(ids), placed, indegree', ready')
  {
    indegree', ready' := indegree, ready;
    assert removed + Elements(ids[..0]) == removed;
    for i := 0 to |targets|
      invariant Standing(nodes, arcs, removed + Elements(ids[..i]), placed, indegree', ready')
    {
      ghost var gone := removed + Elements(ids[..i]);
      NextUnlisted(ids, i, removed);
      indegree', ready' := ReleaseEdge(nodes, arcs, gone, placed, ids[i], targets[i], indegree', ready');
    }
    assert ids[..|targets|] == ids;
  }

  ghost predicate PlacedSoFar(nodes: set<NodeId>, arcs: Arcs, ordered: seq<NodeId>) {
    && Distinct(ordered) && Elements(ordered) <= nodes && Greedy(nodes, arcs, ordered)
  }

  /** The edges whose source has been placed. */
  function Removed(arcs: Arcs, ordered: seq<NodeId>): set<EdgeId> {
    set e | e in arcs && arcs[e].from in ordered
  }

  lemma UncountedMeansReleased(nodes: set<NodeId>, arcs: Arcs, ordered: seq<NodeId>, indegree: map<NodeId, nat>,
                               n: NodeId)
    requires Counts(nodes, arcs, Removed(arcs, ordered), indegree) && n in nodes
    ensures indegree[n] == 0 <==> Released(arcs, ordered, n)
  {
    if indegree[n] == 0 {
      forall e | e in arcs && arcs[e].to == n ensures arcs[e].from in ordered {
        assert e !in Counted(arcs, Removed(arcs, ordered), n);
      }
    } else {
      var e :| e in Counted(arcs, Removed(arcs, ordered), n);
    }
  }

  lemma PlaceNext(nodes: set<NodeId>, arcs: Arcs, ordered: seq<NodeId>, indegree: map<NodeId, nat>,
                  ready: set<NodeId>, n: NodeId)
    requires PlacedSoFar(nodes, arcs, ordered) && Counts(nodes, arcs, Removed(arcs, ordered), indegree)
    requires ReadyIs(nodes, Elements(ordered), indegree, ready) && n in ready && forall m :: m in ready ==> n <= m
    ensures PlacedSoFar(nodes, arcs, ordered + [n])
    ensures Removed(arcs, ordered + [n]) == Removed(arcs, ordered) + Leaving(arcs, n)
    ensures Leaving(arcs, n) !! Removed(arcs, ordered)
  {
    var longer := ordered + [n];
    UncountedMeansReleased(nodes, arcs, ordered, indegree, n);
    forall m | Available(nodes, arcs, ordered, m) ensures n <= m {
      UncountedMeansReleased(nodes, arcs, ordered, indegree, m);
    }
    forall i | 0 <= i < |longer|
      ensures Available(nodes, arcs, longer[..i], longer[i])
      ensures forall m :: Available(nodes, arcs, longer[..i], m) ==> longer[i] <= m
    {
      assert longer[..i] == ordered[..i];
      if i == |ordered| { assert ordered[..i] == ordered; }
    }
  }

  lemma EmptyReadyExhausts(nodes: set<NodeId>, arcs: Arcs, ordered: seq<NodeId>, indegree: map<NodeId, nat>)
    requires PlacedSoFar(nodes, arcs, ordered) && Counts(nodes, arcs, Removed(arcs, ordered), indegree)
    requires ReadyIs(nodes, Elements(ordered), indegree, {})
    ensures Exhausted(nodes, arcs, ordered)
  {
    forall n | n in nodes && n !in ordered ensures Waits(arcs, ordered, n) {
      UncountedMeansReleased(nodes, arcs, ordered, indegree, n);
    }
  }

  lemma LeftoversAreTainted(nodes: set<NodeId>, arcs: Arcs, ordered: seq<NodeId>)
    requires Closed(nodes, arcs) && Exhausted(nodes, arcs, ordered) && Distinct(ordered) && Elements(ordered) <= nodes
    ensures forall n :: n in nodes && n !in ordered <==> n in nodes && Tainted(arcs, n)
    ensures |ordered| == |nodes| <==> nodes == Elements(ordered)
    ensures nodes == Elements(ordered) <==> !HasCycle(arcs)
  {
    forall n | n in nodes ensures n !in ordered <==> Tainted(arcs, n) {
      if n !in ordered { UnplacedIsTainted(nodes, arcs, ordered, n); }
      if Tainted(arcs, n) { TaintedIsUnplaced(nodes, arcs, ordered, n); }
    }
    ElementCount(ordered);
    assert |nodes - Elements(ordered)| == |nodes| - |Elements(ordered)|;
    if nodes != Elements(ordered) {
      var n :| n in nodes - Elements(ordered);
      UnplacedIsTainted(nodes, arcs, ordered, n);
    } else if HasCycle(arcs) {
      var n :| OnCycle(arcs, n);
      CycleNodeIsTainted(nodes, arcs, n);
    }
  }

  lemma CycleNodeIsTainted(nodes: set<NodeId>, arcs: Arcs, n: NodeId)
    requires Closed(nodes, arcs) && OnCycle(arcs, n)
    ensures n in nodes && Tainted(arcs, n)
  {
    var w :| Walk(arcs, w) && |w| > 1 && w[0] == n && w[|w| - 1] == n;
    assert Adjacent(arcs, w[0], w[0 + 1]);
    assert Walk(arcs, [n]);
  }

  /** The loop invariant of the sort. */
  ghost predicate Sorting(nodes: set<NodeId>, arcs: Arcs, ordered: seq<NodeId>, indegree: map<NodeId, nat>,
                          ready: set<NodeId>) {
    && PlacedSoFar(nodes, arcs, ordered)
    && Counts(nodes, arcs, Removed(arcs, ordered), indegree)
    && ReadyIs(nodes, Elements(ordered), indegree, ready)
    && forall n :: n in ordered ==> indegree[n] == 0
  }

  lemma SortingEnds(nodes: set<NodeId>, arcs: Arcs, ordered: seq<NodeId>, indegree: map<NodeId, nat>)
    requires Closed(nodes, arcs) && Sorting(nodes, arcs, ordered, indegree, {})
    ensures |ordered| == |nodes| <==> !HasCycle(arcs)
    ensures |ordered| == |nodes| ==> Topological(nodes, arcs, ordered) && Greedy(nodes, arcs, ordered)
    ensures |ordered| == |nodes| ==>
              forall other :: Topological(nodes, arcs, other) ==> other == ordered || LexLess(ordered, other)
    ensures forall n :: n in nodes && indegree[n] != 0 <==> n in nodes && Tainted(arcs, n)
  {
    EmptyReadyExhausts(nodes, arcs, ordered, indegree);
    LeftoversAreTainted(nodes, arcs, ordered);
    if |ordered| == |nodes| {
      GreedyIsTopological(nodes, arcs, ordered);
      forall other | Topological(nodes, arcs, other) ensures other == ordered || LexLess(ordered, other) {
        GreedyIsLeast(nodes, arcs, ordered, other);
      }
    }
  }

  /** Places the smallest ready node and releases its targets. */
  method PlaceSmallest(nodes: set<NodeId>, arcs: Arcs, outgoing: map<NodeId, seq<NodeId>>,
                       ghost ids: map<NodeId, seq<EdgeId>>,
                       ordered: seq<NodeId>, indegree: map<NodeId, nat>, ready: set<NodeId>)
    returns (ordered': seq<NodeId>, indegree': map<NodeId, nat>, ready': set<NodeId>)
    requires Closed(nodes, arcs) && ListsBut(nodes, arcs, {}, outgoing, ids) && ready != {}
    requires Sorting(nodes, arcs, ordered, indegree, ready)
    ensures Sorting(nodes, arcs, ordered', indegree', ready')
    ensures |ordered'| == |ordered| + 1
  {
    var n := Least(ready);
    PlaceNext(nodes, arcs, ordered, indegree, ready, n);
    ghost var placed := Elements(ordered) + {n};
    assert Elements(ids[n]) == Leaving(arcs, n);
    assert Elements(ordered + [n]) == placed;
    indegree', ready' := Release(nodes, arcs, outgoing[n], ids[n], Removed(arcs, ordered), placed, indegree,
                                 ready - {n});
    ordered' := ordered + [n];
  }

  lemma PlacedAtMostAll(nodes: set<NodeId>, ordered: seq<NodeId>)
    requires Distinct(ordered) && Elements(ordered) <= nodes
    ensures |ordered| <= |nodes|
  {
    ElementCount(ordered);
    SubsetSize(Elements(ordered), nodes);
  }

  /**
   Sorts the nodes, or reports a cycle. Success means the lexicographically least
   topological order of an acyclic graph; failure means a directed cycle exists and the
   reported nodes are exactly those on a cycle or reachable from one.
   */
  method StableTopologicalOrder(nodes: set<NodeId>, arcs: Arcs) returns (r: BuildResult)
    requires Closed(nodes, arcs)
    ensures r.Order? <==> !HasCycle(arcs)
    ensures r.Order? ==> Topological(nodes, arcs, r.order) && Greedy(nodes, arcs, r.order)
    ensures r.Order? ==> forall other :: Topological(nodes, arcs, other) ==> other == r.order || LexLess(r.order, other)
    ensures r.Cycle? ==> forall n :: n in r.nodes <==> n in nodes && Tainted(arcs, n)
  {
    var indegree, outgoing, ids := Tabulate(nodes, arcs);
    var ready := set n | n in nodes && indegree[n] == 0;
    var ordered: seq<NodeId> := [];
    assert Removed(arcs, ordered) == {};
    while ready != {}
      invariant Sorting(nodes, arcs, ordered, indegree, ready)
      invariant |ordered| <= |nodes|
      decreases |nodes| - |ordered|
    {
      ordered, indegree, ready := PlaceSmallest(nodes, arcs, outgoing, ids, ordered, indegree, ready);
      PlacedAtMostAll(nodes, ordered);
    }
    SortingEnds(nodes, arcs, ordered, indegree);
    if |ordered| != |nodes| {
      r := Cycle(set n | n in nodes && indegree[n] != 0);
    } else {
      r := Order(ordered);
    }
  }
}
