/**
 The synchronous graph runner. Nodes are numbered by their position in the topological order,
 so every edge leads to a larger number, and worklists run dry within a budget.
 */
module SyncRunner {
  import opened Optional
  import opened SyncRouting
  import opened SyncEvents

  // ---------------------------------------------------------------- the measure

  function Fan(g: Graph): nat {
    EMISSION_LIMIT * |g.edges|
  }

  /** How many calls one item can cause when `k` ranks are left, itself included. */
  function Reach(k: nat, fan: nat): nat {
    if k == 0 then 0 else 1 + fan * Reach(k - 1, fan)
  }

  function Weight(g: Graph, items: seq<Item>): nat {
    if items == [] then 0
    else Weight(g, items[..|items| - 1]) + Left(g, items[|items| - 1].node)
  }

  function Left(g: Graph, node: nat): nat {
    if node < |g.sources| then Reach(|g.sources| - node, Fan(g)) else 0
  }

  lemma {:induction false} ReachMonotone(j: nat, k: nat, fan: nat)
    requires j <= k
    ensures Reach(j, fan) <= Reach(k, fan)
  {
    if 0 < j {
      ReachMonotone(j - 1, k - 1, fan);
      Multiply(fan, Reach(j - 1, fan), Reach(k - 1, fan));
    }
  }

  lemma Multiply(fan: nat, a: nat, b: nat)
    requires a <= b
    ensures fan * a <= fan * b
  {
  }

  lemma OneMore(i: nat, m: nat)
    ensures (i + 1) * m == i * m + m
  {
  }

  /** `after` is `before` plus at most `most` items, all at nodes later than `node`. */
  ghost predicate Extends(g: Graph, node: nat, before: seq<Item>, after: seq<Item>, most: nat) {
    && before <= after && |after| - |before| <= most
    && forall i :: |before| <= i < |after| ==> node < after[i].node < |g.sources|
  }

  lemma {:induction false} ExtensionWeight(g: Graph, node: nat, before: seq<Item>, after: seq<Item>, most: nat)
    requires node < |g.sources| && Extends(g, node, before, after, most)
    ensures Weight(g, after) <= Weight(g, before) + most * Reach(|g.sources| - node - 1, Fan(g))
    decreases most
  {
    var unit := Reach(|g.sources| - node - 1, Fan(g));
    if |after| == |before| {
      assert after == before;
    } else {
      var rest := after[..|after| - 1];
      assert before <= rest;
      ExtensionWeight(g, node, before, rest, most - 1);
      ReachMonotone(|g.sources| - after[|after| - 1].node, |g.sources| - node - 1, Fan(g));
      OneMore(most - 1, unit);
    }
  }

  lemma {:induction false} FrontWeight(g: Graph, items: seq<Item>)
    requires items != []
    ensures Weight(g, items) == Left(g, items[0].node) + Weight(g, items[1..])
  {
    if |items| == 1 {
      assert items[..0] == [] && items[1..] == [];
    } else {
      FrontWeight(g, items[..|items| - 1]);
      assert items[..|items| - 1][1..] == items[1..][..|items| - 2];
    }
  }

  lemma FanCovers(emitted: nat, edges: nat, unit: nat)
    requires emitted <= EMISSION_LIMIT
    ensures (emitted * edges) * unit <= (EMISSION_LIMIT * edges) * unit
  {
    var few, many := emitted * edges, EMISSION_LIMIT * edges;
    Multiply(edges, emitted, EMISSION_LIMIT);
    assert few <= many;
    Multiply(unit, few, many);
  }

  /** Processing one item at `node` pays for everything it adds, and for itself. */
  lemma ProcessingPays(g: Graph, node: nat, before: seq<Item>, after: seq<Item>, emitted: nat)
    requires node < |g.sources| && emitted <= EMISSION_LIMIT && Extends(g, node, before, after, emitted * |g.edges|)
    ensures Weight(g, after) + 1 <= Weight(g, before) + Left(g, node)
  {
    var unit, most := Reach(|g.sources| - node - 1, Fan(g)), emitted * |g.edges|;
    ExtensionWeight(g, node, before, after, most);
    FanCovers(emitted, |g.edges|, unit);
    assert Left(g, node) == 1 + Fan(g) * unit;
  }

  /** The most calls the sources below `k` can cause. */
  function Budget(g: Graph, k: nat): nat
    requires k <= |g.sources|
  {
    if k == 0 then 0 else Budget(g, k - 1) + (if g.sources[k - 1] then Left(g, k - 1) else 0)
  }

  function SourceCount(g: Graph, k: nat): nat
    requires k <= |g.sources|
  {
    if k == 0 then 0 else SourceCount(g, k - 1) + (if g.sources[k - 1] then 1 else 0)
  }

  /** The sources below `k`, in order. */
  function SourcesBelow(g: Graph, k: nat): seq<nat>
    requires k <= |g.sources|
  {
    if k == 0 then [] else SourcesBelow(g, k - 1) + (if g.sources[k - 1] then [k - 1] else [])
  }

  function NodesOf(items: seq<Item>): seq<nat> {
    seq(|items|, i requires 0 <= i < |items| => items[i].node)
  }

  /** The source itself was called, and then the node of every item taken since. */
  predicate CallsFor(calls: seq<nat>, taken: seq<Item>, node: nat, now: seq<nat>, inputs: seq<Item>) {
    taken <= inputs && now == calls + [node] + NodesOf(inputs[|taken|..])
  }

  lemma CallsForCount(calls: seq<nat>, taken: seq<Item>, node: nat, now: seq<nat>, inputs: seq<Item>)
    requires CallsFor(calls, taken, node, now, inputs)
    ensures |now| - |calls| == 1 + |inputs| - |taken|
  {
  }

  // ---------------------------------------------------------------- the runner

  datatype Phase = Ready | Preparing | Running | Finishing | Finished | Aborting | Aborted
  datatype RunResult = Success | Failure | SingleUse

  function Upto(k: nat): seq<nat> {
    seq(k, i => i)
  }

  ghost predicate IsBelow(s: set<nat>, k: nat) {
    |s| == k && forall i: nat :: i in s <==> i < k
  }

  lemma OneMoreBelow(s: set<nat>, k: nat)
    requires IsBelow(s, k)
    ensures IsBelow(s + {k}, k + 1) && Upto(k + 1) == Upto(k) + [k]
  {
  }

  /** The numbers below n, from n - 1 down to k. */
  function DownFrom(n: nat, k: nat): seq<nat>
    requires k <= n
    decreases n - k
  {
    if k == n then [] else DownFrom(n, k + 1) + [k]
  }

  /**
   `prepareCalls` to `abortCalls` list the callbacks made, in order; `deliveries` lists the items
   put on the worklist, `inputs` those handed to process callbacks, and `sourceCalls` the calls
   made without an input. `log` lists every answer and check, in order.
   */
  class GraphRunner {
    const graph: Graph
    const behaviour: Behaviour
    var phase: Phase
    var tick: nat
    var prepared: set<nat>
    var aborted: set<nat>
    var prepareCalls: seq<nat>
    var processCalls: seq<nat>
    var finishCalls: seq<nat>
    var abortCalls: seq<nat>
    var deliveries: seq<Item>
    var inputs: seq<Item>
    var sourceCalls: seq<nat>
    var log: seq<Event>

    constructor (g: Graph, b: Behaviour)
      requires Acyclic(g)
      ensures graph == g && behaviour == b && Unused()
    {
      graph, behaviour := g, b;
      phase, tick, prepared, aborted, deliveries, inputs, sourceCalls := Ready, 0, {}, {}, [], [], [];
      prepareCalls, processCalls, finishCalls, abortCalls, log := [], [], [], [], [];
    }

    ghost predicate Unused()
      reads this
    {
      && phase == Ready && tick == 0 && log == [] && prepared == {} && aborted == {}
      && deliveries == [] && inputs == [] && sourceCalls == []
      && prepareCalls == [] && processCalls == [] && finishCalls == [] && abortCalls == []
    }

    function Recorded(): Books
      reads this
    {
      Books(prepareCalls, processCalls, finishCalls, deliveries)
    }

    /** The log is sound, and tells of the calls and deliveries recorded. */
    ghost predicate Logged(ok: bool)
      reads this
    {
      Sound(graph, behaviour, log, tick, ok, Recorded())
    }

    lemma NothingLogged()
      requires Unused()
      ensures Logged(true)
    {
      NothingYet(graph, behaviour);
    }

    /** An emission whose port accepts it goes along every enabled edge of the port, in order. */
    method RouteEdges(node: nat, emission: Emission, worklist: seq<Item>) returns (ok: bool, work: seq<Item>)
      requires Acyclic(graph) && node < |graph.sources|
      modifies this`tick, this`deliveries, this`log
      ensures Extends(graph, node, worklist, work, |graph.edges|)
      ensures deliveries == old(deliveries) + work[|worklist|..] && old(log) <= log
      ensures Routed(work[|worklist|..], ok, tick, log[|old(log)|..])
              == Fanout(graph, behaviour, node, emission, old(tick), |graph.edges|)
    {
      work := worklist;
      var j := 0;
      while j < |graph.edges|
        invariant 0 <= j <= |graph.edges| && Extends(graph, node, worklist, work, j)
        invariant deliveries == old(deliveries) + work[|worklist|..] && old(log) <= log
        invariant Routed(work[|worklist|..], true, tick, log[|old(log)|..])
                  == Fanout(graph, behaviour, node, emission, old(tick), j)
      {
        var edge := graph.edges[j];
        if edge.from == node && edge.port == emission.port && edge.enabled {
          var answer := behaviour.edge(tick);
          var verdict := Apply(edge, emission.frame, answer);
          log := log + [PolicyCall(j, emission.frame, answer)];
          tick := tick + 1;
          match verdict
          case Delivers(frame) =>
            deliveries := deliveries + [Item(edge.to, frame)];
            work := work + [Item(edge.to, frame)];
          case Consumes =>
          case Aborts =>
            AbortStays(graph, behaviour, node, emission, old(tick), j + 1, |graph.edges|);
            return false, work;
        }
        j := j + 1;
      }
      ok := true;
    }

    /** One emission along every enabled edge of its port. */
    method RouteOne(node: nat, emission: Emission, worklist: seq<Item>) returns (ok: bool, work: seq<Item>)
      requires Acyclic(graph) && node < |graph.sources|
      modifies this`tick, this`deliveries, this`log
      ensures Extends(graph, node, worklist, work, |graph.edges|)
      ensures deliveries == old(deliveries) + work[|worklist|..] && old(log) <= log
      ensures Routed(work[|worklist|..], ok, tick, log[|old(log)|..])
              == Emit(graph, behaviour, node, emission, old(tick))
    {
      log := log + [PortCheck(node, emission)];
      ghost var start := log;
      assert start[|old(log)|..] == [PortCheck(node, emission)];
      var output := Output(node, emission.port);
      if output !in graph.outputs || graph.outputs[output] != emission.frame.kind { return false, worklist; }
      ok, work := RouteEdges(node, emission, worklist);
      assert log[|old(log)|..] == [PortCheck(node, emission)] + log[|start|..];
    }

    method RouteEmissions(node: nat, emissions: seq<Emission>, worklist: seq<Item>) returns (ok: bool, work: seq<Item>)
      requires Acyclic(graph) && node < |graph.sources|
      modifies this`tick, this`deliveries, this`log
      ensures Extends(graph, node, worklist, work, |emissions| * |graph.edges|)
      ensures deliveries == old(deliveries) + work[|worklist|..] && old(log) <= log
      ensures Routed(work[|worklist|..], ok, tick, log[|old(log)|..])
              == EmitAll(graph, behaviour, node, emissions, old(tick), |emissions|)
    {
      work := worklist;
      var i := 0;
      ok := true;
      while ok && i < |emissions|
        invariant 0 <= i <= |emissions| && Extends(graph, node, worklist, work, i * |graph.edges|)
        invariant deliveries == old(deliveries) + work[|worklist|..]
        invariant old(log) <= log
        invariant Routed(work[|worklist|..], ok, tick, log[|old(log)|..])
                  == EmitAll(graph, behaviour, node, emissions, old(tick), i)
      {
        var before := work;
        ghost var told := log;
        ok, work := RouteOne(node, emissions[i], work);
        OneMore(i, |graph.edges|);
        ExtendsTwice(graph, node, worklist, before, work, i * |graph.edges|, |graph.edges|);
        assert work[|worklist|..] == before[|worklist|..] + work[|before|..];
        assert log[|old(log)|..] == told[|old(log)|..] + log[|told|..];
        i := i + 1;
      }
      Multiply(|graph.edges|, i, |emissions|);
      if !ok { EmitAllStays(graph, behaviour, node, emissions, old(tick), i, |emissions|); }
    }

    /** One process callback and the routing of what it emitted, cut off at the emission limit. */
    method CallProcess(node: nat, worklist: seq<Item>) returns (ok: bool, work: seq<Item>)
      requires Acyclic(graph) && node < |graph.sources|
      modifies this`tick, this`deliveries, this`processCalls, this`log
      ensures processCalls == old(processCalls) + [node] && old(log) <= log
      ensures Weight(graph, work) + 1 <= Weight(graph, worklist) + Left(graph, node)
      ensures worklist <= work && (forall i :: |worklist| <= i < |work| ==> node < work[i].node < |graph.sources|)
      ensures deliveries == old(deliveries) + work[|worklist|..]
      ensures Routed(work[|worklist|..], ok, tick, log[|old(log)|..]) == Called(graph, behaviour, node, old(tick))
    {
      ghost var told := log;
      processCalls := processCalls + [node];
      var answer := behaviour.process(tick);
      log := log + [ProcessCall(node, answer)];
      tick := tick + 1;
      if answer.None? {
        ProcessingPays(graph, node, worklist, worklist, 0);
        return false, worklist;
      }
      var emissions := Limited(answer.value);
      ok, work := RouteEmissions(node, emissions, worklist);
      ProcessingPays(graph, node, worklist, work, |emissions|);
      assert log[|told|..] == [ProcessCall(node, answer)] + log[|told| + 1..];
    }

    /** And the log goes on telling of everything. */
    method Process(node: nat, worklist: seq<Item>) returns (ok: bool, work: seq<Item>)
      requires Acyclic(graph) && node < |graph.sources| && Logged(true)
      modifies this`tick, this`deliveries, this`processCalls, this`log
      ensures processCalls == old(processCalls) + [node] && Logged(ok)
      ensures Weight(graph, work) + 1 <= Weight(graph, worklist) + Left(graph, node)
      ensures worklist <= work && (forall i :: |worklist| <= i < |work| ==> node < work[i].node < |graph.sources|)
      ensures deliveries == old(deliveries) + work[|worklist|..] && old(log) <= log
      ensures Routed(work[|worklist|..], ok, tick, log[|old(log)|..]) == Called(graph, behaviour, node, old(tick))
    {
      ProcessSounds(graph, behaviour, log, tick, Recorded(), node, Called(graph, behaviour, node, tick));
      ok, work := CallProcess(node, worklist);
      assert log == old(log) + log[|old(log)|..];
    }

    /** The oldest item of the worklist is processed; what it adds goes to the back. */
    method Next(worklist: seq<Item>) returns (ok: bool, work: seq<Item>)
      requires Acyclic(graph) && worklist != [] && deliveries == inputs + worklist
      requires (forall i :: 0 <= i < |worklist| ==> worklist[i].node < |graph.sources|) && Logged(true)
      modifies this`tick, this`deliveries, this`inputs, this`processCalls, this`log
      ensures Logged(ok) && processCalls == old(processCalls) + [worklist[0].node]
      ensures inputs == old(inputs) + [worklist[0]]
      ensures deliveries == inputs + work && Weight(graph, work) + 1 <= Weight(graph, worklist)
      ensures forall i :: 0 <= i < |work| ==> work[i].node < |graph.sources|
    {
      var item, rest := worklist[0], worklist[1..];
      FrontWeight(graph, worklist);
      ghost var was := inputs;
      inputs := inputs + [item];
      ok, work := Process(item.node, rest);
      Requeued(was, worklist, work);
    }

    /** The call of a source without an input starts a worklist of its own. */
    method Start(node: nat) returns (ok: bool, work: seq<Item>)
      requires Acyclic(graph) && node < |graph.sources| && Logged(true)
      modifies this`tick, this`deliveries, this`sourceCalls, this`processCalls, this`log
      ensures Logged(ok) && sourceCalls == old(sourceCalls) + [node] && processCalls == old(processCalls) + [node]
      ensures deliveries == old(deliveries) + work && Weight(graph, work) + 1 <= Left(graph, node)
      ensures forall i :: 0 <= i < |work| ==> work[i].node < |graph.sources|
    {
      sourceCalls := sourceCalls + [node];
      ok, work := Process(node, []);
    }

    /**
     One source and everything that follows from it: the worklist runs dry within the source's
     budget, and frames are processed in the order in which they were delivered.
     */
    method RunSource(node: nat) returns (ok: bool)
      requires Acyclic(graph) && node < |graph.sources| && inputs == deliveries && Logged(true)
      modifies this`tick, this`deliveries, this`inputs, this`sourceCalls, this`processCalls, this`log
      ensures Logged(ok)
      ensures |processCalls| <= |old(processCalls)| + Left(graph, node)
      ensures sourceCalls == old(sourceCalls) + [node]
      ensures CallsFor(old(processCalls), old(inputs), node, processCalls, inputs)
      ensures inputs <= deliveries && (ok ==> inputs == deliveries)
    {
      FirstCall(processCalls, inputs, node);
      var worklist;
      ok, worklist := Start(node);
      while ok && worklist != []
        invariant forall i :: 0 <= i < |worklist| ==> worklist[i].node < |graph.sources|
        invariant |processCalls| + Weight(graph, worklist) <= |old(processCalls)| + Left(graph, node)
        invariant sourceCalls == old(sourceCalls) + [node]
        invariant CallsFor(old(processCalls), old(inputs), node, processCalls, inputs)
        invariant deliveries == inputs + worklist && Logged(ok)
        decreases Weight(graph, worklist)
      {
        NextCall(old(processCalls), old(inputs), node, processCalls, inputs, worklist[0]);
        ok, worklist := Next(worklist);
      }
    }

    method PrepareOne(i: nat) returns (good: bool)
      requires Logged(true)
      modifies this`tick, this`prepareCalls, this`log
      ensures prepareCalls == old(prepareCalls) + [i] && Logged(good)
    {
      PrepareSounds(graph, behaviour, log, tick, Recorded(), i);
      prepareCalls := prepareCalls + [i];
      good := behaviour.prepare(tick);
      log := log + [PrepareCall(i, good)];
      tick := tick + 1;
    }

    method PrepareAll() returns (ok: bool)
      requires prepared == {} && prepareCalls == [] && Logged(true)
      modifies this`tick, this`prepared, this`prepareCalls, this`log
      ensures IsBelow(prepared, |prepared|) && Logged(ok)
      ensures |prepared| <= |graph.sources| && (ok <==> |prepared| == |graph.sources|)
      ensures prepareCalls == Upto(if ok then |prepared| else |prepared| + 1)
    {
      var i := 0;
      while i < |graph.sources|
        invariant 0 <= i <= |graph.sources| && prepareCalls == Upto(i)
        invariant IsBelow(prepared, i) && Logged(true)
      {
        OneMoreBelow(prepared, i);
        var good := PrepareOne(i);
        if !good { return false; }
        prepared := prepared + {i};
        i := i + 1;
      }
      ok := true;
    }

    /** The sources below `i` have run, each with everything that follows from it, within their budgets. */
    ghost predicate RanBelow(i: nat, ok: bool)
      reads this
      requires i <= |graph.sources|
    {
      && Logged(ok) && |processCalls| <= Budget(graph, i) && inputs <= deliveries
      && (ok ==> |processCalls| == SourceCount(graph, i) + |inputs| && inputs == deliveries)
      && (ok ==> sourceCalls == SourcesBelow(graph, i))
    }

    /** Position `i` of the topological order: a source runs, any other node has nothing to do of its own. */
    method RunPosition(i: nat) returns (ok: bool)
      requires Acyclic(graph) && i < |graph.sources| && RanBelow(i, true)
      modifies this`tick, this`deliveries, this`inputs, this`sourceCalls, this`processCalls, this`log
      ensures RanBelow(i + 1, ok)
    {
      ok := true;
      if graph.sources[i] {
        ghost var calls, taken := processCalls, inputs;
        ok := RunSource(i);
        CallsForCount(calls, taken, i, processCalls, inputs);
      }
    }

    method RunAll() returns (ok: bool)
      requires Acyclic(graph) && processCalls == [] && deliveries == [] && inputs == [] && sourceCalls == []
      requires Logged(true)
      modifies this`tick, this`deliveries, this`inputs, this`sourceCalls, this`processCalls, this`log
      ensures Logged(ok)
      ensures ok ==> sourceCalls == SourcesBelow(graph, |graph.sources|)
      ensures |processCalls| <= Budget(graph, |graph.sources|) && inputs <= deliveries
      ensures ok ==> |processCalls| == SourceCount(graph, |graph.sources|) + |inputs| && inputs == deliveries
    {
      var i := 0;
      ok := true;
      NothingRan(i);
      while ok && i < |graph.sources|
        invariant 0 <= i <= |graph.sources| && RanBelow(i, ok)
      {
        ok := RunPosition(i);
        i := i + 1;
      }
      RanEnds(i, ok);
    }

    lemma NothingRan(i: nat)
      requires i == 0 && Logged(true)
      requires processCalls == [] && deliveries == [] && inputs == [] && sourceCalls == []
      ensures RanBelow(i, true)
    {
    }

    lemma RanEnds(i: nat, ok: bool)
      requires i <= |graph.sources| && RanBelow(i, ok) && (ok ==> i == |graph.sources|)
      ensures Logged(ok) && |processCalls| <= Budget(graph, |graph.sources|) && inputs <= deliveries
      ensures ok ==> sourceCalls == SourcesBelow(graph, |graph.sources|)
      ensures ok ==> |processCalls| == SourceCount(graph, |graph.sources|) + |inputs| && inputs == deliveries
    {
      BudgetGrows(graph, i, |graph.sources|);
    }

    method FinishOne(i: nat) returns (good: bool)
      requires Logged(true)
      modifies this`tick, this`finishCalls, this`log
      ensures finishCalls == old(finishCalls) + [i] && Logged(good)
    {
      FinishSounds(graph, behaviour, log, tick, Recorded(), i);
      finishCalls := finishCalls + [i];
      good := behaviour.finish(tick);
      log := log + [FinishCall(i, good)];
      tick := tick + 1;
    }

    method FinishAll() returns (ok: bool)
      requires finishCalls == [] && Logged(true)
      modifies this`tick, this`finishCalls, this`log
      ensures ok ==> finishCalls == DownFrom(|graph.sources|, 0)
      ensures finishCalls <= DownFrom(|graph.sources|, 0) && Logged(ok)
    {
      var n := |graph.sources|;
      var i := n;
      while i > 0
        invariant 0 <= i <= n && finishCalls == DownFrom(n, i) && Logged(true)
      {
        i := i - 1;
        ok := FinishOne(i);
        DownPrefix(n, i, 0);
        if !ok { return; }
      }
      ok := true;
    }

    /** Abort hooks of the prepared nodes, in reverse topological order, each once. */
    method AbortAllPrepared()
      requires aborted == {} && abortCalls == []
      requires IsBelow(prepared, |prepared|) && |prepared| <= |graph.sources|
      modifies this`aborted, this`abortCalls
      ensures abortCalls == DownFrom(|prepared|, 0) && aborted == prepared
    {
      var i := |graph.sources|;
      while i > 0
        invariant 0 <= i <= |graph.sources|
        invariant aborted == (set k | k in prepared && k >= i)
        invariant abortCalls == DownFrom(|prepared|, if i < |prepared| then i else |prepared|)
      {
        i := i - 1;
        if i in prepared && i !in aborted {
          aborted := aborted + {i};
          abortCalls := abortCalls + [i];
        }
      }
    }

    /** The two phases after preparation. */
    method RunAndFinish() returns (ok: bool)
      requires Acyclic(graph) && processCalls == [] && deliveries == [] && inputs == [] && sourceCalls == []
      requires finishCalls == [] && Logged(true)
      modifies this`phase, this`tick, this`deliveries, this`inputs, this`sourceCalls, this`processCalls
      modifies this`finishCalls, this`log
      ensures |processCalls| <= Budget(graph, |graph.sources|) && inputs <= deliveries && Logged(ok)
      ensures finishCalls <= DownFrom(|graph.sources|, 0)
      ensures ok ==> finishCalls == DownFrom(|graph.sources|, 0) && sourceCalls == SourcesBelow(graph, |graph.sources|)
      ensures ok ==> |processCalls| == SourceCount(graph, |graph.sources|) + |inputs| && inputs == deliveries
    {
      phase := Running;
      ok := RunAll();
      if !ok { return; }
      phase := Finishing;
      ok := FinishAll();
    }

    method Execute() returns (ok: bool)
      requires Acyclic(graph) && Unused()
      modifies this
      ensures IsBelow(prepared, |prepared|) && |prepared| <= |graph.sources|
      ensures prepareCalls == Upto(if |prepared| == |graph.sources| then |prepared| else |prepared| + 1)
      ensures |processCalls| <= Budget(graph, |graph.sources|)
      ensures processCalls != [] || finishCalls != [] ==> |prepared| == |graph.sources|
      ensures finishCalls <= DownFrom(|graph.sources|, 0)
      ensures inputs <= deliveries
      ensures ok ==>
                && |prepared| == |graph.sources|
                && |processCalls| == SourceCount(graph, |graph.sources|) + |inputs| && inputs == deliveries
      ensures ok ==> finishCalls == DownFrom(|graph.sources|, 0) && sourceCalls == SourcesBelow(graph, |graph.sources|)
      ensures aborted == {} && abortCalls == [] && Logged(ok)
    {
      NothingLogged();
      phase := Preparing;
      ok := PrepareAll();
      if ok { ok := RunAndFinish(); }
    }

    /**
     The whole life of a runner. It runs once; it always returns, after at most `Budget` process
     calls; it succeeds exactly if no callback, no port check and no edge policy failed, and it
     asks nothing after the first failure. On success every node was prepared in order and
     finished in reverse, and the frames processed are exactly those delivered, in that order; on
     failure exactly the prepared nodes were aborted, in reverse.
     */
    method Run() returns (result: RunResult)
      requires Acyclic(graph) && (phase == Ready ==> Unused())
      modifies this
      ensures old(phase) != Ready ==>
                && result == SingleUse && phase == old(phase) && tick == old(tick)
                && prepareCalls == old(prepareCalls) && processCalls == old(processCalls)
                && finishCalls == old(finishCalls) && abortCalls == old(abortCalls) && log == old(log)
      ensures old(phase) == Ready ==> Logged(result == Success) && (result == Success <==> Clean(graph, log))
      ensures old(phase) == Ready ==> result != SingleUse && |processCalls| <= Budget(graph, |graph.sources|)
      ensures result == Success ==>
                && phase == Finished && abortCalls == []
                && prepareCalls == Upto(|graph.sources|) && finishCalls == DownFrom(|graph.sources|, 0)
                && sourceCalls == SourcesBelow(graph, |graph.sources|) && inputs == deliveries
                && |processCalls| == SourceCount(graph, |graph.sources|) + |inputs|
      ensures result == Failure ==>
                && phase == Aborted && inputs <= deliveries && abortCalls == DownFrom(|prepared|, 0)
                && prepareCalls == Upto(if |prepared| == |graph.sources| then |prepared| else |prepared| + 1)
                && finishCalls <= DownFrom(|graph.sources|, 0)
                && (processCalls != [] || finishCalls != [] ==> |prepared| == |graph.sources|)
    {
      if phase != Ready { return SingleUse; }
      var ok := Execute();
      LoggedIsClean(ok);
      if ok {
        phase := Finished;
        return Success;
      }
      Abort();
      return Failure;
    }

    method Abort()
      requires aborted == {} && abortCalls == []
      requires IsBelow(prepared, |prepared|) && |prepared| <= |graph.sources|
      modifies this`phase, this`aborted, this`abortCalls
      ensures phase == Aborted && abortCalls == DownFrom(|prepared|, 0)
    {
      phase := Aborting;
      AbortAllPrepared();
      phase := Aborted;
    }

    lemma LoggedIsClean(ok: bool)
      requires Logged(ok)
      ensures ok <==> Clean(graph, log)
    {
      SoundIsClean(graph, behaviour, log, tick, ok, Recorded());
    }
  }

  lemma FirstCall(calls: seq<nat>, taken: seq<Item>, node: nat)
    ensures CallsFor(calls, taken, node, calls + [node], taken)
  {
    assert taken[|taken|..] == [];
  }

  lemma NextCall(calls: seq<nat>, taken: seq<Item>, node: nat, now: seq<nat>, inputs: seq<Item>, item: Item)
    requires CallsFor(calls, taken, node, now, inputs)
    ensures CallsFor(calls, taken, node, now + [item.node], inputs + [item])
  {
    assert (inputs + [item])[|taken|..] == inputs[|taken|..] + [item];
    assert NodesOf(inputs[|taken|..] + [item]) == NodesOf(inputs[|taken|..]) + [item.node];
  }

  lemma Requeued(was: seq<Item>, worklist: seq<Item>, work: seq<Item>)
    requires worklist != [] && worklist[1..] <= work
    ensures was + worklist + work[|worklist| - 1..] == was + [worklist[0]] + work
  {
    assert worklist == [worklist[0]] + worklist[1..];
    assert work == worklist[1..] + work[|worklist| - 1..];
  }

  lemma ExtendsTwice(g: Graph, node: nat, a: seq<Item>, b: seq<Item>, c: seq<Item>, m: nat, k: nat)
    requires Extends(g, node, a, b, m) && Extends(g, node, b, c, k)
    ensures Extends(g, node, a, c, m + k)
  {
    forall i | |a| <= i < |c| ensures node < c[i].node < |g.sources| {
      if i < |b| { assert c[i] == b[i]; }
    }
  }

  lemma {:induction false} BudgetGrows(g: Graph, i: nat, k: nat)
    requires i <= k <= |g.sources|
    ensures Budget(g, i) <= Budget(g, k)
    decreases k
  {
    if i < k { BudgetGrows(g, i, k - 1); }
  }

  lemma {:induction false} DownPrefix(n: nat, i: nat, k: nat)
    requires k <= i <= n
    ensures DownFrom(n, i) <= DownFrom(n, k)
    decreases i - k
  {
    if k < i { DownPrefix(n, i, k + 1); }
  }

  /**
   A graph without edges needs at most one call per source; in general the budget is the sum
   of the sources' reach.
   */
  lemma {:induction false} BudgetIsBounded(g: Graph, k: nat)
    requires k <= |g.sources|
    ensures Budget(g, k) <= k * Reach(|g.sources|, Fan(g))
  {
    if k > 0 {
      BudgetIsBounded(g, k - 1);
      ReachMonotone(|g.sources| - (k - 1), |g.sources|, Fan(g));
      OneMore(k - 1, Reach(|g.sources|, Fan(g)));
    }
  }
}
