/**
 The logical job graph (api/graph.py): validation, the keyed-stream analysis, and the partitioning of edges.
 Past validation, operators are named by their declaration position.
 */
module JobGraph {
  import opened Wrappers
  import opened Sequences
  import opened Routing
  import opened TopologicalSort

  datatype OperatorType = Source | Map | KeyBy | Reduce | Sink

  datatype OperatorSpec = OperatorSpec(id: string, kind: OperatorType, parallelism: nat)

  datatype EdgeSpec = EdgeSpec(from: string, to: string)

  datatype Definition = Definition(operators: seq<OperatorSpec>, edges: seq<EdgeSpec>)

  datatype ConfigIssue =
    | DuplicateId(position: nat)
    | DuplicateEdge(position: nat)
    | UnknownFrom(position: nat)
    | UnknownTo(position: nat)
    | SelfLoop(position: nat)
    | SourceHasInput(position: nat)
    | NoUpstream(position: nat)
    | SinkHasOutput(position: nat)
    | NoDownstream(position: nat)
    | NoSource
    | NoSink
    | Cycle(operators: seq<nat>)
    | UnkeyedReduce(position: nat)

  // ----- validation -----

  predicate UniqueIds(operators: seq<OperatorSpec>) {
    forall i, j :: 0 <= i < j < |operators| ==> operators[i].id != operators[j].id
  }

  /** Each id with the position that declares it. */
  predicate Indexes(index: map<string, nat>, operators: seq<OperatorSpec>) {
    && (forall i :: 0 <= i < |operators| ==> operators[i].id in index && index[operators[i].id] == i)
    && (forall id :: id in index ==> index[id] < |operators| && operators[index[id]].id == id)
  }

  predicate KnownEndpoints(d: Definition, index: map<string, nat>) {
    forall i :: 0 <= i < |d.edges| ==> d.edges[i].from in index && d.edges[i].to in index
  }

  predicate ProperEdges(edges: seq<EdgeSpec>) {
    && (forall i, j :: 0 <= i < j < |edges| ==> edges[i] != edges[j])
    && (forall i :: 0 <= i < |edges| ==> edges[i].from != edges[i].to)
  }

  predicate HasInput(d: Definition, id: string) {
    exists i :: 0 <= i < |d.edges| && d.edges[i].to == id
  }

  predicate HasOutput(d: Definition, id: string) {
    exists i :: 0 <= i < |d.edges| && d.edges[i].from == id
  }

  /** Sources have no input and others have one; sinks have no output and others have one. */
  predicate ProperDegrees(d: Definition, n: nat)
    requires n <= |d.operators|
  {
    forall i :: 0 <= i < n ==>
      && (d.operators[i].kind == Source <==> !HasInput(d, d.operators[i].id))
      && (d.operators[i].kind == Sink <==> !HasOutput(d, d.operators[i].id))
  }

  predicate Declares(operators: seq<OperatorSpec>, kind: OperatorType) {
    exists i :: 0 <= i < |operators| && operators[i].kind == kind
  }

  predicate ProperRelations(d: Definition, index: map<string, nat>) {
    && KnownEndpoints(d, index) && ProperEdges(d.edges) && ProperDegrees(d, |d.operators|)
    && Declares(d.operators, Source) && Declares(d.operators, Sink)
  }

  method IndexOperators(operators: seq<OperatorSpec>) returns (r: Result<map<string, nat>, seq<ConfigIssue>>)
    ensures r.Ok? <==> UniqueIds(operators)
    ensures r.Ok? ==> Indexes(r.value, operators)
    ensures r.Err? ==> r.error != [] && forall e :: e in r.error <==>
              e.DuplicateId? && e.position < |operators| && exists i :: 0 <= i < e.position && operators[i].id == operators[e.position].id
  {
    var index: map<string, nat> := map[];
    var issues: seq<ConfigIssue> := [];
    for position := 0 to |operators|
      invariant forall id :: id in index <==> exists i :: 0 <= i < position && operators[i].id == id
      invariant issues == [] <==> UniqueIds(operators[..position])
      invariant issues == [] ==> Indexes(index, operators[..position])
      invariant forall e :: e in issues <==>
                  e.DuplicateId? && e.position < position && exists i :: 0 <= i < e.position && operators[i].id == operators[e.position].id
    {
      if operators[position].id in index {
        issues := issues + [DuplicateId(position)];
      } else {
        index := index[operators[position].id := position];
      }
    }
    assert operators[..|operators|] == operators;
    if issues != [] {
      return Err(issues);
    }
    return Ok(index);
  }

  /** What is wrong with an edge: it repeats an earlier one, an end is not declared, or it is a loop. */
  ghost predicate EdgeIssue(d: Definition, index: map<string, nat>, k: nat, e: ConfigIssue)
    requires k < |d.edges|
  {
    var edge := d.edges[k];
    || (e == DuplicateEdge(k) && edge in d.edges[..k])
    || (e == UnknownFrom(k) && edge.from !in index)
    || (e == UnknownTo(k) && edge.to !in index)
    || (e == SelfLoop(k) && edge.from == edge.to)
  }

  /** The checks of each edge by itself, and of its pair against the earlier ones. */
  method CheckEdges(d: Definition, index: map<string, nat>) returns (issues: seq<ConfigIssue>)
    ensures issues == [] <==> KnownEndpoints(d, index) && ProperEdges(d.edges)
    ensures forall e :: e in issues <==> exists k: nat :: k < |d.edges| && EdgeIssue(d, index, k, e)
  {
    issues := [];
    var seen: set<EdgeSpec> := {};
    for k := 0 to |d.edges|
      invariant forall e :: e in seen <==> e in d.edges[..k]
      invariant issues == [] <==>
                KnownEndpoints(Definition(d.operators, d.edges[..k]), index) && ProperEdges(d.edges[..k])
      invariant forall e :: e in issues <==> exists j: nat :: j < k && EdgeIssue(d, index, j, e)
    {
      var edge := d.edges[k];
      ghost var before := issues;
      if edge in seen {
        issues := issues + [DuplicateEdge(k)];
      } else {
        seen := seen + {edge};
      }
      if edge.from !in index {
        issues := issues + [UnknownFrom(k)];
      }
      if edge.to !in index {
        issues := issues + [UnknownTo(k)];
      }
      if edge.from == edge.to {
        issues := issues + [SelfLoop(k)];
      }
      EdgeAdds(d, index, k);
      assert forall e :: e in issues <==> e in before || EdgeIssue(d, index, k, e);
      hide EdgeIssue;
      assert d.edges[..k + 1] == d.edges[..k] + [edge];
    }
    assert d.edges[..|d.edges|] == d.edges;
    assert Definition(d.operators, d.edges) == d;
  }

  lemma EdgeAdds(d: Definition, index: map<string, nat>, k: nat)
    requires k < |d.edges|
    ensures var edge, shorter := d.edges[k], d.edges[..k];
            KnownEndpoints(Definition(d.operators, d.edges[..k + 1]), index) && ProperEdges(d.edges[..k + 1]) <==>
            && KnownEndpoints(Definition(d.operators, shorter), index) && ProperEdges(shorter)
            && edge !in shorter && edge.from in index && edge.to in index && edge.from != edge.to
  {
    var longer, shorter := d.edges[..k + 1], d.edges[..k];
    assert longer == shorter + [d.edges[k]];
    if KnownEndpoints(Definition(d.operators, longer), index) && ProperEdges(longer) {
      assert longer[k] == d.edges[k];
      assert forall i :: 0 <= i < k ==> longer[i] == shorter[i];
    }
  }

  /** What is wrong with an operator: a source has an input, a sink an output, or another one lacks either. */
  ghost predicate OperatorIssue(d: Definition, k: nat, e: ConfigIssue)
    requires k < |d.operators|
  {
    var operator := d.operators[k];
    || (e == SourceHasInput(k) && operator.kind == Source && HasInput(d, operator.id))
    || (e == NoUpstream(k) && operator.kind != Source && !HasInput(d, operator.id))
    || (e == SinkHasOutput(k) && operator.kind == Sink && HasOutput(d, operator.id))
    || (e == NoDownstream(k) && operator.kind != Sink && !HasOutput(d, operator.id))
  }

  /** The checks of each operator's degrees, and that there is a source and a sink. */
  method CheckOperators(d: Definition) returns (issues: seq<ConfigIssue>)
    ensures forall e :: e in issues <==>
              || (exists k: nat :: k < |d.operators| && OperatorIssue(d, k, e))
              || (e == NoSource && !Declares(d.operators, Source)) || (e == NoSink && !Declares(d.operators, Sink))
    ensures issues == [] <==>
            ProperDegrees(d, |d.operators|) && Declares(d.operators, Source) && Declares(d.operators, Sink)
  {
    issues := [];
    var sourceCount, sinkCount := 0, 0;
    for k := 0 to |d.operators|
      invariant issues == [] <==> ProperDegrees(d, k)
      invariant sourceCount > 0 <==> Declares(d.operators[..k], Source)
      invariant sinkCount > 0 <==> Declares(d.operators[..k], Sink)
      invariant forall e :: e in issues <==> exists j: nat :: j < k && OperatorIssue(d, j, e)
    {
      var operator := d.operators[k];
      ghost var before := issues;
      assert d.operators[..k + 1][k] == operator;
      assert forall i :: 0 <= i < k ==> d.operators[..k + 1][i] == d.operators[..k][i];
      if operator.kind == Source {
        sourceCount := sourceCount + 1;
        if HasInput(d, operator.id) {
          issues := issues + [SourceHasInput(k)];
        }
      } else if !HasInput(d, operator.id) {
        issues := issues + [NoUpstream(k)];
      }
      if operator.kind == Sink {
        sinkCount := sinkCount + 1;
        if HasOutput(d, operator.id) {
          issues := issues + [SinkHasOutput(k)];
        }
      } else if !HasOutput(d, operator.id) {
        issues := issues + [NoDownstream(k)];
      }
      assert forall e :: e in issues <==> e in before || OperatorIssue(d, k, e);
    }
    assert d.operators[..|d.operators|] == d.operators;
    if sourceCount == 0 {
      issues := issues + [NoSource];
    }
    if sinkCount == 0 {
      issues := issues + [NoSink];
    }
  }

  /** All relations between operators and edges; unknown endpoints are reported before anything else. */
  method ValidateEdges(d: Definition, index: map<string, nat>) returns (issues: seq<ConfigIssue>)
    ensures issues == [] <==> ProperRelations(d, index)
    ensures forall e :: e in issues <==>
              || (exists k: nat :: k < |d.edges| && EdgeIssue(d, index, k, e))
              || (KnownEndpoints(d, index)
                  && (|| (exists k: nat :: k < |d.operators| && OperatorIssue(d, k, e))
                      || (e == NoSource && !Declares(d.operators, Source))
                      || (e == NoSink && !Declares(d.operators, Sink))))
  {
    issues := CheckEdges(d, index);
    if !KnownEndpoints(d, index) && issues != [] {
      return;
    }
    var more := CheckOperators(d);
    issues := issues + more;
  }

  // ----- the keyed analysis -----

  function ToDigraph(d: Definition, index: map<string, nat>): (g: Digraph)
    requires Indexes(index, d.operators) && KnownEndpoints(d, index)
    ensures g.Valid() && g.size == |d.operators| && |g.edges| == |d.edges|
    ensures forall i :: 0 <= i < |d.edges| ==>
              g.edges[i] == (index[d.edges[i].from], index[d.edges[i].to])
  {
    Digraph(|d.operators|,
            seq(|d.edges|, i requires 0 <= i < |d.edges| => (index[d.edges[i].from], index[d.edges[i].to])))
  }

  predicate AllInputsKeyed(g: Digraph, keyed: seq<bool>, v: nat)
    requires g.Valid() && |keyed| == g.size
  {
    forall i :: 0 <= i < |g.edges| && g.edges[i].1 == v ==> keyed[g.edges[i].0]
  }

  predicate AnyInput(g: Digraph, v: nat) {
    exists i :: 0 <= i < |g.edges| && g.edges[i].1 == v
  }

  /** The rule by which one operator's output is keyed, given its inputs. */
  predicate KeyedRule(g: Digraph, kinds: seq<OperatorType>, keyed: seq<bool>, v: nat)
    requires g.Valid() && |kinds| == |keyed| == g.size && v < g.size
  {
    match kinds[v]
    case Source => false
    case KeyBy => true
    case _ => AnyInput(g, v) && AllInputsKeyed(g, keyed, v)
  }

  ghost predicate IsKeyedAnalysis(g: Digraph, kinds: seq<OperatorType>, keyed: seq<bool>) {
    && g.Valid() && |kinds| == |keyed| == g.size
    && forall v :: 0 <= v < g.size ==> keyed[v] == KeyedRule(g, kinds, keyed, v)
  }

  /** One pass in topological order; a reduce whose output is not keyed is an issue. */
  method PropagateStreamProperties(g: Digraph, kinds: seq<OperatorType>, order: seq<nat>)
    returns (keyed: seq<bool>, issues: seq<ConfigIssue>)
    requires g.Valid() && |kinds| == g.size && IsTopological(g, order)
    ensures IsKeyedAnalysis(g, kinds, keyed)
    ensures issues == [] <==> forall v :: 0 <= v < g.size && kinds[v] == Reduce ==> keyed[v]
    ensures forall e :: e in issues <==> e.UnkeyedReduce? && e.position < g.size && kinds[e.position] == Reduce && !keyed[e.position]
  {
    hide IsTopological, KeyedRule;
    keyed, issues := seq(g.size, _ => false), [];
    for k := 0 to |order|
      invariant |keyed| == g.size
      invariant forall i :: 0 <= i < k ==>
                  order[i] < g.size && keyed[order[i]] == KeyedRule(g, kinds, keyed, order[i])
      invariant issues == [] <==> forall i :: 0 <= i < k && kinds[order[i]] == Reduce ==> keyed[order[i]]
      invariant forall e :: e in issues <==>
                  e.UnkeyedReduce? && e.position in order[..k] && kinds[e.position] == Reduce && !keyed[e.position]
    {
      var v := order[k];
      PlacedOnce(g, order, k);
      ghost var before := keyed;
      var isKeyed := KeyedRule(g, kinds, keyed, v);
      keyed := keyed[v := isKeyed];
      if kinds[v] == Reduce && !isKeyed {
        issues := issues + [UnkeyedReduce(v)];
      }
      forall i | 0 <= i <= k ensures order[i] < g.size && keyed[order[i]] == KeyedRule(g, kinds, keyed, order[i]) {
        PlacedOnce(g, order, i);
        LaterOperatorsDoNotMatter(g, kinds, order, before, keyed, i, k);
      }
    }
    AllInOrder(g, order);
    assert order[..|order|] == order;
    forall v: nat | v < g.size
      ensures keyed[v] == KeyedRule(g, kinds, keyed, v)
      ensures issues == [] && kinds[v] == Reduce ==> keyed[v]
    {
      assert v in order;
      var i :| 0 <= i < |order| && order[i] == v;
    }
  }

  lemma AllInOrder(g: Digraph, order: seq<nat>)
    requires IsTopological(g, order)
    ensures forall v: nat :: v < g.size ==> v in order
  {
    AllPlaced(g, order);
  }

  lemma PlacedOnce(g: Digraph, order: seq<nat>, k: nat)
    requires IsTopological(g, order) && k < |order|
    ensures order[k] < g.size && order[k] !in order[..k] && order[..k + 1] == order[..k] + [order[k]]
  {
    assert Ready(g, order[..k], order[k]);
  }

  lemma LaterOperatorsDoNotMatter(g: Digraph, kinds: seq<OperatorType>, order: seq<nat>,
                                  before: seq<bool>, after: seq<bool>, i: nat, k: nat)
    requires g.Valid() && |kinds| == |before| == |after| == g.size && IsTopological(g, order)
    requires i <= k < |order| && forall v :: 0 <= v < g.size && v != order[k] ==> before[v] == after[v]
    ensures KeyedRule(g, kinds, before, order[i]) == KeyedRule(g, kinds, after, order[i])
  {
    forall e | 0 <= e < |g.edges| && g.edges[e].1 == order[i]
      ensures before[g.edges[e].0] == after[g.edges[e].0]
    {
      assert Ready(g, order[..i], order[i]);
      assert g.edges[e].0 in order[..i];
    }
  }

  // ----- what keyed means -----

  ghost predicate PassesKeyBy(kinds: seq<OperatorType>, p: seq<nat>) {
    exists i :: 0 <= i < |p| && p[i] < |kinds| && kinds[p[i]] == KeyBy
  }

  ghost predicate SourcePath(g: Digraph, kinds: seq<OperatorType>, p: seq<nat>, v: nat) {
    IsWalk(g, p) && p[|p| - 1] == v && |kinds| == g.size && kinds[p[0]] == Source
  }

  /** Every operator but a source has an input, as validation demands. */
  ghost predicate OnlySourcesLackInput(g: Digraph, kinds: seq<OperatorType>) {
    |kinds| == g.size && forall v :: 0 <= v < g.size && kinds[v] != Source ==> AnyInput(g, v)
  }

  lemma {:induction false} KeyedPathsPassKeyBy(g: Digraph, kinds: seq<OperatorType>, keyed: seq<bool>, p: seq<nat>)
    requires IsKeyedAnalysis(g, kinds, keyed) && IsWalk(g, p) && kinds[p[0]] == Source && keyed[p[|p| - 1]]
    ensures PassesKeyBy(kinds, p)
  {
    var v := p[|p| - 1];
    assert keyed[v] == KeyedRule(g, kinds, keyed, v);
    if kinds[v] != KeyBy {
      assert |p| >= 2;
      var shorter := p[..|p| - 1];
      var u := shorter[|shorter| - 1];
      assert (p[|p| - 2], p[|p| - 2 + 1]) in g.edges;
      var e :| 0 <= e < |g.edges| && g.edges[e] == (u, v);
      assert IsWalk(g, shorter) by {
        SubWalk(g, p, 0, |p| - 1);
        assert p[0..|p| - 1] == shorter;
      }
      KeyedPathsPassKeyBy(g, kinds, keyed, shorter);
      var i :| 0 <= i < |shorter| && shorter[i] < |kinds| && kinds[shorter[i]] == KeyBy;
      assert p[i] == shorter[i];
    }
  }

  /** An operator that is not keyed has a path from a source that never passes a key_by. */
  lemma {:induction false} UnkeyedPathExists(
    g: Digraph, kinds: seq<OperatorType>, keyed: seq<bool>, order: seq<nat>, k: nat) returns (p: seq<nat>)
    requires IsKeyedAnalysis(g, kinds, keyed) && OnlySourcesLackInput(g, kinds) && IsTopological(g, order)
    requires k < |order| && !keyed[order[k]]
    ensures SourcePath(g, kinds, p, order[k]) && !PassesKeyBy(kinds, p)
  {
    var v := order[k];
    assert keyed[v] == KeyedRule(g, kinds, keyed, v);
    if kinds[v] == Source {
      p := [v];
    } else {
      var e :| 0 <= e < |g.edges| && g.edges[e].1 == v && !keyed[g.edges[e].0];
      var u := g.edges[e].0;
      assert Ready(g, order[..k], order[k]);
      var j :| 0 <= j < k && order[..k][j] == u;
      var q := UnkeyedPathExists(g, kinds, keyed, order, j);
      p := q + [v];
      assert g.edges[e] == (u, v);
      forall i | 0 <= i < |p| - 1 ensures (p[i], p[i + 1]) in g.edges {
        if i < |q| - 1 {
          assert (q[i], q[i + 1]) in g.edges;
        }
      }
      assert forall i :: 0 <= i < |q| ==> p[i] == q[i];
    }
  }

  /** A stream is keyed iff every path from a source to its operator, inclusive, passes a key_by. */
  lemma KeyedIffEveryPathPassesKeyBy(
    g: Digraph, kinds: seq<OperatorType>, keyed: seq<bool>, order: seq<nat>, v: nat)
    requires IsKeyedAnalysis(g, kinds, keyed) && OnlySourcesLackInput(g, kinds) && IsTopological(g, order)
    requires v < g.size
    ensures keyed[v] <==> forall p :: SourcePath(g, kinds, p, v) ==> PassesKeyBy(kinds, p)
  {
    if keyed[v] {
      forall p | SourcePath(g, kinds, p, v) ensures PassesKeyBy(kinds, p) {
        KeyedPathsPassKeyBy(g, kinds, keyed, p);
      }
    } else {
      AllPlaced(g, order);
      assert v in order;
      var k :| 0 <= k < |order| && order[k] == v;
      var p := UnkeyedPathExists(g, kinds, keyed, order, k);
    }
  }

  // ----- building the graph -----

  /** A validated graph; the partitionings are those of the declared edges, in order. */
  datatype StreamGraph = StreamGraph(
    definition: Definition,
    digraph: Digraph,
    order: seq<nat>,
    keyed: seq<bool>,
    partitionings: seq<Partitioning>)

  function Kinds(d: Definition): (kinds: seq<OperatorType>)
    ensures |kinds| == |d.operators| && forall i :: 0 <= i < |kinds| ==> kinds[i] == d.operators[i].kind
  {
    seq(|d.operators|, i requires 0 <= i < |d.operators| => d.operators[i].kind)
  }

  function NormalizeEdge(sourceKeyed: bool, source: OperatorSpec, target: OperatorSpec): Partitioning {
    if sourceKeyed then Hash
    else if source.parallelism == target.parallelism then Forward
    else Rebalance
  }

  ghost predicate IsStreamGraph(s: StreamGraph) {
    var d := s.definition;
    && s.digraph.Valid() && s.digraph.size == |d.operators| && |s.digraph.edges| == |d.edges|
    && UniqueIds(d.operators) && ProperEdges(d.edges)
    && (forall i :: 0 <= i < |d.edges| ==>
          && d.operators[s.digraph.edges[i].0].id == d.edges[i].from
          && d.operators[s.digraph.edges[i].1].id == d.edges[i].to)
    && Greedy(s.digraph, s.order) && IsTopological(s.digraph, s.order)
    && IsKeyedAnalysis(s.digraph, Kinds(d), s.keyed) && OnlySourcesLackInput(s.digraph, Kinds(d))
    && (forall v :: 0 <= v < s.digraph.size && d.operators[v].kind == Source ==> !AnyInput(s.digraph, v))
    && (forall v :: 0 <= v < s.digraph.size && d.operators[v].kind == Reduce ==> s.keyed[v])
    && |s.partitionings| == |d.edges|
    && (forall i :: 0 <= i < |d.edges| ==>
          var (u, v) := s.digraph.edges[i];
          s.partitionings[i] == NormalizeEdge(s.keyed[u], d.operators[u], d.operators[v]))
  }

  /**
   The partitioning of every edge: HASH exactly where the stream is keyed, otherwise FORWARD exactly between equal
   parallelisms; and every edge into a reduce is HASH.
   */
  lemma PartitioningsAre(s: StreamGraph, i: nat)
    requires IsStreamGraph(s) && i < |s.digraph.edges|
    ensures |s.partitionings| == |s.digraph.edges|
    ensures var (u, v) := s.digraph.edges[i];
            && (s.partitionings[i] == Hash <==> s.keyed[u])
            && (!s.keyed[u] ==> (s.partitionings[i] == Forward
                                 <==> s.definition.operators[u].parallelism == s.definition.operators[v].parallelism))
            && (s.definition.operators[v].kind == Reduce ==> s.partitionings[i] == Hash)
  {
    hide OnlySourcesLackInput, Greedy, IsTopological, ProperEdges;
    var (u, v) := s.digraph.edges[i];
    assert s.keyed[v] == KeyedRule(s.digraph, Kinds(s.definition), s.keyed, v);
  }

  /** In terms of the graph alone: an edge is HASH iff every path from a source to its tail passes a key_by. */
  lemma HashIffKeyedPaths(s: StreamGraph, i: nat)
    requires IsStreamGraph(s) && i < |s.digraph.edges|
    ensures |s.partitionings| == |s.digraph.edges|
    ensures s.partitionings[i] == Hash
       <==> forall p :: SourcePath(s.digraph, Kinds(s.definition), p, s.digraph.edges[i].0) ==> PassesKeyBy(Kinds(s.definition), p)
  {
    hide SourcePath, PassesKeyBy, IsTopological, Greedy, ProperEdges;
    PartitioningsAre(s, i);
    KeyedIffEveryPathPassesKeyBy(s.digraph, Kinds(s.definition), s.keyed, s.order, s.digraph.edges[i].0);
  }

  /** Some source reaches some reduce without passing a key_by. */
  ghost predicate ReduceOnUnkeyedPath(g: Digraph, kinds: seq<OperatorType>) {
    exists p, v: nat :: SourcePath(g, kinds, p, v) && kinds[v] == Reduce && !PassesKeyBy(kinds, p)
  }

  /** This reduce lies on a path from a source that passes no key_by. */
  ghost predicate UnkeyedReduceAt(g: Digraph, kinds: seq<OperatorType>, v: nat) {
    v < |kinds| && kinds[v] == Reduce && exists p :: SourcePath(g, kinds, p, v) && !PassesKeyBy(kinds, p)
  }

  lemma UnkeyedIsOnPath(g: Digraph, kinds: seq<OperatorType>, keyed: seq<bool>, order: seq<nat>, v: nat)
    requires IsKeyedAnalysis(g, kinds, keyed) && OnlySourcesLackInput(g, kinds) && IsTopological(g, order)
    ensures UnkeyedReduceAt(g, kinds, v) <==> v < g.size && kinds[v] == Reduce && !keyed[v]
  {
    hide SourcePath, PassesKeyBy, IsTopological, OnlySourcesLackInput;
    if v < g.size {
      KeyedIffEveryPathPassesKeyBy(g, kinds, keyed, order, v);
    }
  }

  lemma UnkeyedAreOnPaths(g: Digraph, kinds: seq<OperatorType>, keyed: seq<bool>, order: seq<nat>, issues: seq<ConfigIssue>)
    requires IsKeyedAnalysis(g, kinds, keyed) && OnlySourcesLackInput(g, kinds) && IsTopological(g, order)
    requires forall e :: e in issues <==> e.UnkeyedReduce? && e.position < g.size && kinds[e.position] == Reduce && !keyed[e.position]
    ensures forall e :: e in issues <==> e.UnkeyedReduce? && UnkeyedReduceAt(g, kinds, e.position)
  {
    hide IsTopological, OnlySourcesLackInput, UnkeyedReduceAt;
    forall e: ConfigIssue | e.UnkeyedReduce?
      ensures UnkeyedReduceAt(g, kinds, e.position) <==> e.position < g.size && kinds[e.position] == Reduce && !keyed[e.position]
    {
      UnkeyedIsOnPath(g, kinds, keyed, order, e.position);
    }
  }

  ghost predicate Sound(d: Definition, g: Digraph) {
    Acyclic(g) && !ReduceOnUnkeyedPath(g, Kinds(d))
  }

  /** Everything that a definition must satisfy to be accepted, without reference to how that is checked. */
  ghost predicate Acceptable(d: Definition) {
    && UniqueIds(d.operators)
    && exists index ::
         && Indexes(index, d.operators) && ProperRelations(d, index)
         && Sound(d, ToDigraph(d, index))
  }

  lemma IndexIsUnique(a: map<string, nat>, b: map<string, nat>, operators: seq<OperatorSpec>)
    requires Indexes(a, operators) && Indexes(b, operators)
    ensures a == b
  {
    forall id ensures id in a <==> id in b {
      if id in a { assert operators[a[id]].id == id; }
      if id in b { assert operators[b[id]].id == id; }
    }
    forall id | id in a ensures a[id] == b[id] {
      assert operators[a[id]].id == id;
    }
  }

  lemma DegreesCarryOver(d: Definition, index: map<string, nat>)
    requires Indexes(index, d.operators) && ProperRelations(d, index)
    ensures var g := ToDigraph(d, index);
            && OnlySourcesLackInput(g, Kinds(d))
            && forall v :: 0 <= v < g.size && d.operators[v].kind == Source ==> !AnyInput(g, v)
  {
    var g := ToDigraph(d, index);
    forall v: nat | v < g.size ensures AnyInput(g, v) <==> d.operators[v].kind != Source {
      InputsCarryOver(d, index, v);
    }
  }

  lemma InputsCarryOver(d: Definition, index: map<string, nat>, v: nat)
    requires Indexes(index, d.operators) && KnownEndpoints(d, index) && v < |d.operators|
    ensures AnyInput(ToDigraph(d, index), v) <==> HasInput(d, d.operators[v].id)
  {
    var g, id := ToDigraph(d, index), d.operators[v].id;
    if HasInput(d, id) {
      var i :| 0 <= i < |d.edges| && d.edges[i].to == id;
      assert g.edges[i].1 == v;
    }
    if AnyInput(g, v) {
      var i :| 0 <= i < |g.edges| && g.edges[i].1 == v;
      assert d.edges[i].to == id;
    }
  }

  function NormalizeEdges(d: Definition, g: Digraph, keyed: seq<bool>): (p: seq<Partitioning>)
    requires g.Valid() && g.size == |d.operators| == |keyed|
    ensures |p| == |g.edges|
    ensures forall i :: 0 <= i < |g.edges| ==>
              p[i] == NormalizeEdge(keyed[g.edges[i].0], d.operators[g.edges[i].0], d.operators[g.edges[i].1])
  {
    seq(|g.edges|, i requires 0 <= i < |g.edges| =>
      NormalizeEdge(keyed[g.edges[i].0], d.operators[g.edges[i].0], d.operators[g.edges[i].1]))
  }

  lemma IsAssembled(d: Definition, index: map<string, nat>, order: seq<nat>, keyed: seq<bool>)
    requires UniqueIds(d.operators) && Indexes(index, d.operators) && ProperRelations(d, index)
    requires var g := ToDigraph(d, index);
             && Greedy(g, order) && IsTopological(g, order) && IsKeyedAnalysis(g, Kinds(d), keyed)
             && (forall v :: 0 <= v < g.size && Kinds(d)[v] == Reduce ==> keyed[v])
    ensures var g := ToDigraph(d, index);
            IsStreamGraph(StreamGraph(d, g, order, keyed, NormalizeEdges(d, g, keyed)))
  {
    hide IsTopological, Greedy, IsKeyedAnalysis, OnlySourcesLackInput, ProperDegrees;
    DegreesCarryOver(d, index);
  }

  /** Sorting, keyed analysis and edges, for a definition whose relations are in order. */
  method Analyse(d: Definition, index: map<string, nat>) returns (r: Result<StreamGraph, seq<ConfigIssue>>)
    requires UniqueIds(d.operators) && Indexes(index, d.operators) && ProperRelations(d, index)
    ensures r.Ok? <==> Sound(d, ToDigraph(d, index))
    ensures r.Ok? ==> IsStreamGraph(r.value) && r.value.definition == d
    ensures r.Err? ==> r.error != []
    ensures var g := ToDigraph(d, index);
            !Acyclic(g) ==>
              && r.Err? && |r.error| == 1 && r.error[0].Cycle?
              && forall v: nat :: v in r.error[0].operators <==> (v < g.size && BehindCycle(g, v))
    ensures var g := ToDigraph(d, index);
            Acyclic(g) && r.Err? ==>
              forall e :: e in r.error <==> e.UnkeyedReduce? && UnkeyedReduceAt(g, Kinds(d), e.position)
  {
    hide Acyclic, BehindCycle, ReduceOnUnkeyedPath, OnlySourcesLackInput, IsTopological, Greedy, Exhausted, IsStreamGraph,
      UnkeyedReduceAt, IsKeyedAnalysis;
    var g := ToDigraph(d, index);
    DegreesCarryOver(d, index);
    var order, cycleNodes := SortTopologically(g);
    SucceedsIffAcyclic(g, order);
    BehindAreLeftOut(g, order);
    if |order| != g.size {
      return Err([Cycle(cycleNodes)]);
    }
    r := Assemble(d, index, g, order);
  }

  lemma BehindAreLeftOut(g: Digraph, order: seq<nat>)
    requires g.Valid() && Greedy(g, order) && Exhausted(g, order)
    requires NoDuplicates(order) && forall v :: v in order ==> v < g.size
    ensures forall v: nat :: v < g.size ==> (v !in order <==> BehindCycle(g, v))
  {
    hide Greedy, Exhausted, BehindCycle, NoDuplicates;
    forall v: nat | v < g.size ensures v !in order <==> BehindCycle(g, v) {
      LeftOutIffBehindCycle(g, order, v);
    }
  }

  /** The keyed analysis and the edges, once the operators are sorted. */
  method Assemble(d: Definition, ghost index: map<string, nat>, g: Digraph, order: seq<nat>)
    returns (r: Result<StreamGraph, seq<ConfigIssue>>)
    requires UniqueIds(d.operators) && Indexes(index, d.operators) && ProperRelations(d, index) && g == ToDigraph(d, index)
    requires Greedy(g, order) && IsTopological(g, order) && OnlySourcesLackInput(g, Kinds(d))
    ensures r.Ok? <==> !ReduceOnUnkeyedPath(g, Kinds(d))
    ensures r.Ok? ==> IsStreamGraph(r.value) && r.value.definition == d
    ensures r.Err? ==> r.error != [] && forall e :: e in r.error <==> e.UnkeyedReduce? && UnkeyedReduceAt(g, Kinds(d), e.position)
  {
    hide ReduceOnUnkeyedPath, OnlySourcesLackInput, IsTopological, Greedy, IsStreamGraph, UnkeyedReduceAt, IsKeyedAnalysis,
      UniqueIds, Indexes, ProperRelations, NormalizeEdge, NormalizeEdges;
    var keyed, unkeyed := PropagateStreamProperties(g, Kinds(d), order);
    ReducesKeyedIffNoUnkeyedPath(g, Kinds(d), keyed, order);
    if unkeyed != [] {
      UnkeyedAreOnPaths(g, Kinds(d), keyed, order, unkeyed);
      return Err(unkeyed);
    }
    assert |keyed| == g.size by { AnalysisIsComplete(g, Kinds(d), keyed); }
    IsAssembled(d, index, order, keyed);
    return Ok(StreamGraph(d, g, order, keyed, NormalizeEdges(d, g, keyed)));
  }

  lemma AnalysisIsComplete(g: Digraph, kinds: seq<OperatorType>, keyed: seq<bool>)
    requires IsKeyedAnalysis(g, kinds, keyed)
    ensures |keyed| == g.size && g.Valid()
  {
  }

  /** Builds the graph: it succeeds exactly on acceptable definitions. */
  method BuildStreamGraph(d: Definition) returns (r: Result<StreamGraph, seq<ConfigIssue>>)
    ensures r.Ok? <==> Acceptable(d)
    ensures r.Err? ==> r.error != []
    ensures !UniqueIds(d.operators) ==> r.Err? && forall e :: e in r.error ==> e.DuplicateId?
    ensures r.Ok? ==> IsStreamGraph(r.value) && r.value.definition == d
  {
    hide ProperRelations, Indexes, UniqueIds, Sound, IsStreamGraph;
    var indexed := IndexOperators(d.operators);
    if indexed.Err? {
      return Err(indexed.error);
    }
    var index := indexed.value;
    forall other | Indexes(other, d.operators) ensures other == index {
      IndexIsUnique(other, index, d.operators);
    }
    var issues := ValidateEdges(d, index);
    if issues != [] {
      return Err(issues);
    }
    r := Analyse(d, index);
  }

  /** The reduce check rejects exactly the graphs where a source reaches a reduce past no key_by. */
  lemma ReducesKeyedIffNoUnkeyedPath(g: Digraph, kinds: seq<OperatorType>, keyed: seq<bool>, order: seq<nat>)
    requires IsKeyedAnalysis(g, kinds, keyed) && OnlySourcesLackInput(g, kinds) && IsTopological(g, order)
    ensures (forall v :: 0 <= v < g.size && kinds[v] == Reduce ==> keyed[v]) <==> !ReduceOnUnkeyedPath(g, kinds)
  {
    forall v: nat | v < g.size
      ensures keyed[v] <==> forall p :: SourcePath(g, kinds, p, v) ==> PassesKeyBy(kinds, p)
    {
      KeyedIffEveryPathPassesKeyBy(g, kinds, keyed, order, v);
    }
  }
}
