/**
 The topological sort of a job's operators (api/graph.py). Operators are named by their declaration position;
 edges may repeat.
 */
module TopologicalSort {
  import opened Sequences

  datatype Digraph = Digraph(size: nat, edges: seq<(nat, nat)>) {
    predicate Valid() {
      forall i :: 0 <= i < |edges| ==> edges[i].0 < size && edges[i].1 < size
    }
  }

  function Nodes(n: nat): (s: set<nat>)
    ensures forall v: nat :: v in s <==> v < n
    ensures |s| == n
  {
    if n == 0 then {} else Nodes(n - 1) + {n - 1}
  }

  // ----- walks and cycles -----

  ghost predicate IsWalk(g: Digraph, p: seq<nat>) {
    && p != []
    && (forall i :: 0 <= i < |p| ==> p[i] < g.size)
    && (forall i :: 0 <= i < |p| - 1 ==> (p[i], p[i + 1]) in g.edges)
  }

  ghost predicate WalkFromTo(g: Digraph, p: seq<nat>, a: nat, b: nat) {
    IsWalk(g, p) && p[0] == a && p[|p| - 1] == b
  }

  ghost predicate Reaches(g: Digraph, a: nat, b: nat) {
    exists p :: WalkFromTo(g, p, a, b)
  }

  ghost predicate OnCycle(g: Digraph, v: nat) {
    exists p :: WalkFromTo(g, p, v, v) && |p| >= 2
  }

  /** On a cycle, or downstream of one. */
  ghost predicate BehindCycle(g: Digraph, v: nat) {
    exists c :: OnCycle(g, c) && Reaches(g, c, v)
  }

  ghost predicate Acyclic(g: Digraph) {
    forall v: nat :: v < g.size ==> !OnCycle(g, v)
  }

  // ----- what the sort computes -----

  /** A node that may come next: it is not placed yet and all its predecessors are. */
  ghost predicate Ready(g: Digraph, placed: seq<nat>, v: nat) {
    && v < g.size && v !in placed
    && forall i :: 0 <= i < |g.edges| && g.edges[i].1 == v ==> g.edges[i].0 in placed
  }

  /** Each node was, when placed, the least of those that could come next. */
  ghost predicate Greedy(g: Digraph, ordered: seq<nat>) {
    forall i :: 0 <= i < |ordered| ==>
      && Ready(g, ordered[..i], ordered[i])
      && forall v: nat :: v < ordered[i] ==> !Ready(g, ordered[..i], v)
  }

  ghost predicate Exhausted(g: Digraph, ordered: seq<nat>) {
    forall v: nat :: v < g.size ==> !Ready(g, ordered, v)
  }

  /** How many edges into v come from nodes not placed yet. */
  function Missing(edges: seq<(nat, nat)>, placed: seq<nat>, v: nat): nat {
    if edges == [] then 0
    else
      var last := edges[|edges| - 1];
      Missing(edges[..|edges| - 1], placed, v) + (if last.1 == v && last.0 !in placed then 1 else 0)
  }

  function Targets(edges: seq<(nat, nat)>, u: nat): seq<nat> {
    if edges == [] then []
    else
      var last := edges[|edges| - 1];
      Targets(edges[..|edges| - 1], u) + (if last.0 == u then [last.1] else [])
  }

  lemma {:induction false} MissingIsZero(edges: seq<(nat, nat)>, placed: seq<nat>, v: nat)
    ensures Missing(edges, placed, v) == 0
        <==> forall i :: 0 <= i < |edges| && edges[i].1 == v ==> edges[i].0 in placed
  {
    if edges != [] {
      MissingIsZero(edges[..|edges| - 1], placed, v);
    }
  }

  lemma OccurrencesAppend(s: seq<nat>, x: nat, v: nat)
    ensures Occurrences(s + [x], v) == Occurrences(s, v) + (if x == v then 1 else 0)
  {
    assert (s + [x])[..|s|] == s;
  }

  /** Placing u takes away one missing predecessor for each edge out of u. */
  lemma {:induction false} PlacingReducesMissing(edges: seq<(nat, nat)>, placed: seq<nat>, u: nat, v: nat)
    requires u !in placed
    ensures Missing(edges, placed, v)
         == Missing(edges, placed + [u], v) + Occurrences(Targets(edges, u), v)
  {
    if edges != [] {
      var init, last := edges[..|edges| - 1], edges[|edges| - 1];
      PlacingReducesMissing(init, placed, u, v);
      OccurrencesAppend(Targets(init, u), last.1, v);
      assert Targets(init, u) + [] == Targets(init, u);
      assert last.0 in placed + [u] <==> last.0 in placed || last.0 == u;
    }
  }

  lemma {:induction false} OccurrencesSplit(s: seq<nat>, k: nat, v: nat)
    requires k <= |s|
    ensures Occurrences(s[..k], v) <= Occurrences(s, v)
    ensures k < |s| && s[k] == v ==> Occurrences(s[..k], v) < Occurrences(s, v)
  {
    if k < |s| {
      var init := s[..|s| - 1];
      if k < |init| || (k == |init| && k < |s|) {
        assert init[..k] == s[..k];
        OccurrencesSplit(init, k, v);
      }
    } else {
      assert s[..k] == s;
    }
  }

  ghost predicate IsLeast(m: nat, s: set<nat>) {
    m in s && forall v :: v in s ==> m <= v
  }

  lemma {:induction false} LeastExists(s: set<nat>)
    requires s != {}
    ensures exists m :: IsLeast(m, s)
  {
    var m :| m in s;
    if s == {m} {
      assert IsLeast(m, s);
    } else {
      LeastExists(s - {m});
      var n :| IsLeast(n, s - {m});
      var least := if m < n then m else n;
      assert forall v :: v in s ==> v == m || v in s - {m};
      assert IsLeast(least, s);
    }
  }

  /** Taking from the heap: its least entry. */
  function Least(s: set<nat>): (m: nat)
    requires s != {}
    ensures IsLeast(m, s)
  {
    LeastExists(s);
    var m :| m in s && forall v :: v in s ==> m <= v;
    m
  }

  method CountDegrees(g: Digraph) returns (indegree: seq<nat>, outgoing: seq<seq<nat>>)
    requires g.Valid()
    ensures |indegree| == g.size && |outgoing| == g.size
    ensures forall v: nat :: v < g.size ==> indegree[v] == Missing(g.edges, [], v)
    ensures forall u: nat :: u < g.size ==> outgoing[u] == Targets(g.edges, u)
  {
    indegree, outgoing := seq(g.size, _ => 0), seq(g.size, _ => []);
    for k := 0 to |g.edges|
      invariant |indegree| == g.size && |outgoing| == g.size
      invariant forall v: nat :: v < g.size ==> indegree[v] == Missing(g.edges[..k], [], v)
      invariant forall u: nat :: u < g.size ==> outgoing[u] == Targets(g.edges[..k], u)
    {
      var (source, target) := g.edges[k];
      assert g.edges[..k + 1][..k] == g.edges[..k];
      indegree := indegree[target := indegree[target] + 1];
      outgoing := outgoing[source := outgoing[source] + [target]];
    }
    assert g.edges[..|g.edges|] == g.edges;
  }

  /** The nodes that may come next, in terms of the counters. */
  ghost predicate ReadySet(g: Digraph, placed: seq<nat>, indegree: seq<nat>, ready: set<nat>)
    requires |indegree| == g.size
  {
    forall v: nat :: v in ready <==> (v < g.size && v !in placed && indegree[v] == 0)
  }

  /** Accounts for one placed node: its targets lose a predecessor each, and may become ready. */
  method ReleaseTargets(g: Digraph, ghost placed: seq<nat>, u: nat, targets: seq<nat>,
                        indegree0: seq<nat>, ready0: set<nat>)
    returns (indegree: seq<nat>, ready: set<nat>)
    requires g.Valid() && |indegree0| == g.size && u < g.size && u !in placed
    requires targets == Targets(g.edges, u)
    requires forall v: nat :: v < g.size ==> indegree0[v] == Missing(g.edges, placed, v)
    requires forall v: nat :: v in placed + [u] ==> v < g.size && indegree0[v] == 0
    requires ReadySet(g, placed + [u], indegree0, ready0)
    ensures |indegree| == g.size
    ensures forall v: nat :: v < g.size ==> indegree[v] == Missing(g.edges, placed + [u], v)
    ensures ReadySet(g, placed + [u], indegree, ready)
  {
    indegree, ready := indegree0, ready0;
    for k := 0 to |targets|
      invariant |indegree| == g.size
      invariant forall v: nat :: v < g.size ==>
                  indegree[v] + Occurrences(targets[..k], v) == Missing(g.edges, placed, v)
      invariant ReadySet(g, placed + [u], indegree, ready)
    {
      var target := targets[k];
      TargetsInRange(g, u, k);
      PlacingReducesMissing(g.edges, placed, u, target);
      OccurrencesSplit(targets, k, target);
      assert targets[..k + 1][..k] == targets[..k];
      indegree := indegree[target := indegree[target] - 1];
      if indegree[target] == 0 {
        ready := ready + {target};
      }
    }
    assert targets[..|targets|] == targets;
    forall v: nat | v < g.size ensures indegree[v] == Missing(g.edges, placed + [u], v) {
      PlacingReducesMissing(g.edges, placed, u, v);
    }
  }

  lemma {:induction false} TargetsInRange(g: Digraph, u: nat, k: nat)
    requires g.Valid() && k < |Targets(g.edges, u)|
    ensures Targets(g.edges, u)[k] < g.size
    decreases |g.edges|
  {
    var init := Digraph(g.size, g.edges[..|g.edges| - 1]);
    if k < |Targets(init.edges, u)| {
      TargetsInRange(init, u, k);
    }
  }

  /** The sort's variables between two rounds of its loop. */
  ghost predicate SortState(g: Digraph, ordered: seq<nat>, indegree: seq<nat>, ready: set<nat>) {
    && |indegree| == g.size
    && (forall v: nat :: v < g.size ==> indegree[v] == Missing(g.edges, ordered, v))
    && ReadySet(g, ordered, indegree, ready)
    && NoDuplicates(ordered) && Greedy(g, ordered)
    && (forall v :: v in ordered ==> v < g.size && indegree[v] == 0)
  }

  /** One round: the least ready node is placed and its targets released. */
  method PlaceNext(g: Digraph, outgoing: seq<seq<nat>>, ordered0: seq<nat>, indegree0: seq<nat>, ready0: set<nat>)
    returns (ordered: seq<nat>, indegree: seq<nat>, ready: set<nat>)
    requires g.Valid() && SortState(g, ordered0, indegree0, ready0) && ready0 != {}
    requires |outgoing| == g.size && forall u: nat :: u < g.size ==> outgoing[u] == Targets(g.edges, u)
    ensures SortState(g, ordered, indegree, ready) && |ordered| == |ordered0| + 1 <= g.size
  {
    var u := Least(ready0);
    PlacingLeast(g, ordered0, u, indegree0, ready0);
    indegree, ready := ReleaseTargets(g, ordered0, u, outgoing[u], indegree0, ready0 - {u});
    ordered := ordered0 + [u];
    forall v | v in ordered ensures indegree[v] == 0 {
      PlacingReducesMissing(g.edges, ordered0, u, v);
    }
    PlacedBound(g, ordered);
  }

  lemma NothingLeft(g: Digraph, ordered: seq<nat>, indegree: seq<nat>)
    requires SortState(g, ordered, indegree, {})
    ensures Exhausted(g, ordered)
    ensures forall v: nat :: v < g.size ==> (indegree[v] > 0 <==> v !in ordered)
  {
    forall v: nat | v < g.size ensures !Ready(g, ordered, v) && (indegree[v] > 0 <==> v !in ordered) {
      MissingIsZero(g.edges, ordered, v);
    }
  }

  /** The sort itself; `cycleNodes` are the operators the error message names when it fails. */
  method SortTopologically(g: Digraph) returns (ordered: seq<nat>, cycleNodes: seq<nat>)
    requires g.Valid()
    ensures Greedy(g, ordered) && Exhausted(g, ordered)
    ensures NoDuplicates(ordered) && forall v :: v in ordered ==> v < g.size
    ensures forall v: nat :: v in cycleNodes <==> (v < g.size && v !in ordered)
    ensures forall i, j :: 0 <= i < j < |cycleNodes| ==> cycleNodes[i] < cycleNodes[j]
  {
    var indegree, outgoing := CountDegrees(g);
    var ready := set v | v in Nodes(g.size) && indegree[v] == 0;
    ordered := [];
    assert ReadySet(g, [], indegree, ready);
    while ready != {}
      invariant SortState(g, ordered, indegree, ready) && |ordered| <= g.size
      decreases g.size - |ordered|
    {
      ordered, indegree, ready := PlaceNext(g, outgoing, ordered, indegree, ready);
    }
    NothingLeft(g, ordered, indegree);
    cycleNodes := [];
    if |ordered| != g.size {
      cycleNodes := WithPredecessorsLeft(indegree);
    } else {
      AllPlaced(g, ordered);
    }
  }

  /** The operators that still wait for some predecessor, in declaration order. */
  method WithPredecessorsLeft(indegree: seq<nat>) returns (nodes: seq<nat>)
    ensures forall v: nat :: v in nodes <==> (v < |indegree| && indegree[v] > 0)
    ensures forall i, j :: 0 <= i < j < |nodes| ==> nodes[i] < nodes[j]
  {
    nodes := [];
    for v := 0 to |indegree|
      invariant forall w: nat :: w in nodes <==> (w < v && indegree[w] > 0)
      invariant forall i :: 0 <= i < |nodes| ==> nodes[i] < v
      invariant forall i, j :: 0 <= i < j < |nodes| ==> nodes[i] < nodes[j]
    {
      if indegree[v] > 0 {
        nodes := nodes + [v];
      }
    }
  }

  /** An order as long as the graph is large leaves no node out. */
  lemma AllPlaced(g: Digraph, ordered: seq<nat>)
    requires NoDuplicates(ordered) && |ordered| == g.size && forall v :: v in ordered ==> v < g.size
    ensures forall v: nat :: v < g.size ==> v in ordered
  {
    forall v: nat | v < g.size ensures v in ordered {
      if v !in ordered {
        PlacedBound(g, ordered + [v]);
      }
    }
  }

  lemma PlacingLeast(g: Digraph, ordered: seq<nat>, u: nat, indegree: seq<nat>, ready: set<nat>)
    requires |indegree| == g.size && u in ready && (forall v: nat :: v in ready ==> u <= v)
    requires forall v: nat :: v < g.size ==> indegree[v] == Missing(g.edges, ordered, v)
    requires ReadySet(g, ordered, indegree, ready) && Greedy(g, ordered)
    ensures Greedy(g, ordered + [u])
  {
    forall v: nat ensures Ready(g, ordered, v) <==> v in ready {
      MissingIsZero(g.edges, ordered, v);
    }
    var longer := ordered + [u];
    forall i | 0 <= i < |longer|
      ensures Ready(g, longer[..i], longer[i]) && forall v: nat :: v < longer[i] ==> !Ready(g, longer[..i], v)
    {
      assert longer[..i] == ordered[..i];
    }
  }

  lemma PlacedBound(g: Digraph, ordered: seq<nat>)
    requires NoDuplicates(ordered) && forall v :: v in ordered ==> v < g.size
    ensures |ordered| <= g.size
  {
    NoDuplicatesBound(ordered, Nodes(g.size));
  }

  // ----- what the order means -----

  /** Every node once, and every edge pointing forward. */
  ghost predicate IsTopological(g: Digraph, order: seq<nat>) {
    && NoDuplicates(order) && |order| == g.size
    && (forall v :: v in order ==> v < g.size)
    && (forall i :: 0 <= i < |order| ==> Ready(g, order[..i], order[i]))
  }

  /** Along a walk that ends in a placed node, every node was placed before the next. */
  lemma {:induction false} WalksRunForward(g: Digraph, ordered: seq<nat>, p: seq<nat>)
    returns (i: nat, j: nat)
    requires Greedy(g, ordered) && IsWalk(g, p) && p[|p| - 1] in ordered
    ensures i <= j < |ordered| && ordered[i] == p[0] && ordered[j] == p[|p| - 1]
    ensures |p| >= 2 ==> i < j
  {
    if |p| == 1 {
      i :| 0 <= i < |ordered| && ordered[i] == p[0];
      j := i;
    } else {
      var rest := p[1..];
      SubWalk(g, p, 1, |p|);
      assert p[1..|p|] == rest;
      var m;
      m, j := WalksRunForward(g, ordered, rest);
      assert (p[0], p[1]) in g.edges;
      var e :| 0 <= e < |g.edges| && g.edges[e] == (p[0], p[1]);
      assert p[0] in ordered[..m];
      i :| 0 <= i < m && ordered[..m][i] == p[0];
    }
  }

  /** From a node that was never placed, walking back along unplaced predecessors ends in a cycle. */
  lemma {:induction false} CycleBehind(g: Digraph, ordered: seq<nat>, p: seq<nat>) returns (c: nat)
    requires g.Valid() && Exhausted(g, ordered) && IsWalk(g, p) && NoDuplicates(p)
    requires forall k :: 0 <= k < |p| ==> p[k] !in ordered
    ensures OnCycle(g, c) && Reaches(g, c, p[|p| - 1])
    decreases g.size - |p|
  {
    PlacedBound(g, p);
    c := UnplacedPredecessor(g, ordered, p[0]);
    ExtendWalk(g, c, p);
    if c in p {
      CloseCycle(g, c, p);
    } else {
      PlacedBound(g, [c] + p);
      c := CycleBehind(g, ordered, [c] + p);
    }
  }

  lemma UnplacedPredecessor(g: Digraph, ordered: seq<nat>, v: nat) returns (u: nat)
    requires g.Valid() && Exhausted(g, ordered) && v < g.size && v !in ordered
    ensures u < g.size && u !in ordered && (u, v) in g.edges
  {
    assert !Ready(g, ordered, v);
    var e :| 0 <= e < |g.edges| && g.edges[e].1 == v && g.edges[e].0 !in ordered;
    u := g.edges[e].0;
    assert g.edges[e] == (u, v);
  }

  lemma SubWalk(g: Digraph, p: seq<nat>, i: nat, j: nat)
    requires IsWalk(g, p) && i < j <= |p|
    ensures WalkFromTo(g, p[i..j], p[i], p[j - 1])
  {
    var q := p[i..j];
    forall k | 0 <= k < |q| - 1 ensures (q[k], q[k + 1]) in g.edges {
      assert q[k] == p[i + k] && q[k + 1] == p[i + k + 1];
    }
  }

  lemma ExtendWalk(g: Digraph, u: nat, p: seq<nat>)
    requires IsWalk(g, p) && u < g.size && (u, p[0]) in g.edges
    ensures IsWalk(g, [u] + p)
  {
    var q := [u] + p;
    forall k | 0 <= k < |q| - 1 ensures (q[k], q[k + 1]) in g.edges {
      if k > 0 {
        assert q[k] == p[k - 1] && q[k + 1] == p[k];
      }
    }
  }

  lemma CloseCycle(g: Digraph, c: nat, p: seq<nat>)
    requires IsWalk(g, p) && IsWalk(g, [c] + p) && c in p
    ensures OnCycle(g, c) && Reaches(g, c, p[|p| - 1])
  {
    var k :| 0 <= k < |p| && p[k] == c;
    SubWalk(g, [c] + p, 0, k + 2);
    SubWalk(g, p, k, |p|);
  }

  /** The nodes left out are exactly those on a cycle or downstream of one. */
  lemma LeftOutIffBehindCycle(g: Digraph, ordered: seq<nat>, v: nat)
    requires g.Valid() && Greedy(g, ordered) && Exhausted(g, ordered) && v < g.size
    ensures v !in ordered <==> BehindCycle(g, v)
  {
    if v !in ordered {
      var c := CycleBehind(g, ordered, [v]);
    } else if BehindCycle(g, v) {
      var c :| OnCycle(g, c) && Reaches(g, c, v);
      var p :| WalkFromTo(g, p, c, v);
      var i, j := WalksRunForward(g, ordered, p);
      var cycle :| WalkFromTo(g, cycle, c, c) && |cycle| >= 2;
      NoPlacedCycle(g, ordered, cycle);
      assert false;
    }
  }

  lemma NoPlacedCycle(g: Digraph, ordered: seq<nat>, cycle: seq<nat>)
    requires Greedy(g, ordered) && IsWalk(g, cycle) && |cycle| >= 2 && cycle[0] == cycle[|cycle| - 1]
    ensures cycle[0] !in ordered
  {
    if cycle[0] in ordered {
      var i, j := WalksRunForward(g, ordered, cycle);
    }
  }

  /** The sort succeeds exactly on acyclic graphs, and what it then returns is a topological order. */
  lemma SucceedsIffAcyclic(g: Digraph, ordered: seq<nat>)
    requires g.Valid() && Greedy(g, ordered) && Exhausted(g, ordered)
    requires NoDuplicates(ordered) && forall v :: v in ordered ==> v < g.size
    ensures |ordered| == g.size <==> Acyclic(g)
    ensures |ordered| == g.size ==> IsTopological(g, ordered)
  {
    if |ordered| == g.size {
      AllPlaced(g, ordered);
      forall v: nat | v < g.size ensures !OnCycle(g, v) {
        if OnCycle(g, v) {
          var cycle :| WalkFromTo(g, cycle, v, v) && |cycle| >= 2;
          NoPlacedCycle(g, ordered, cycle);
        }
      }
    } else {
      PlacedBound(g, ordered);
      MissingNode(g, ordered);
      var v: nat :| v < g.size && v !in ordered;
      var c := CycleBehind(g, ordered, [v]);
    }
  }

  lemma MissingNode(g: Digraph, ordered: seq<nat>)
    requires |ordered| < g.size
    ensures exists v: nat :: v < g.size && v !in ordered
  {
    if forall v: nat :: v < g.size ==> v in ordered {
      CoverBound(ordered, Nodes(g.size));
    }
  }

  lemma {:induction false} CoverBound(s: seq<nat>, universe: set<nat>)
    requires forall v :: v in universe ==> v in s
    ensures |universe| <= |s|
  {
    if s == [] {
      assert universe == {};
    } else {
      var last := s[|s| - 1];
      CoverBound(s[..|s| - 1], universe - {last});
    }
  }

  /** Where two orders of the same graph first differ, the sort's has the earlier declaration. */
  ghost predicate ComesFirst(a: seq<nat>, b: seq<nat>) {
    a == b || exists i :: 0 <= i < |a| && i < |b| && a[..i] == b[..i] && a[i] < b[i]
  }

  /** Of all topological orders the sort returns the lexicographically least. */
  lemma OrderIsLeast(g: Digraph, ordered: seq<nat>, other: seq<nat>)
    requires Greedy(g, ordered) && |ordered| == g.size && IsTopological(g, other)
    ensures ComesFirst(ordered, other)
  {
    FirstDifference(g, ordered, other, 0);
  }

  lemma {:induction false} FirstDifference(g: Digraph, ordered: seq<nat>, other: seq<nat>, i: nat)
    requires Greedy(g, ordered) && |ordered| == g.size && IsTopological(g, other)
    requires i <= g.size && ordered[..i] == other[..i]
    ensures ComesFirst(ordered, other)
    decreases g.size - i
  {
    if i == g.size {
      assert ordered == ordered[..i] && other == other[..i];
    } else if ordered[i] == other[i] {
      assert ordered[..i + 1] == ordered[..i] + [ordered[i]] && other[..i + 1] == other[..i] + [other[i]];
      FirstDifference(g, ordered, other, i + 1);
    } else {
      assert Ready(g, ordered[..i], other[i]);
    }
  }
}
