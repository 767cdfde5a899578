/** Expanding a logical graph into physical tasks and channels (control/execution.py). */
module Execution {
  import opened Wrappers
  import opened Sequences
  import opened TaskIds
  import opened Routing
  import opened TopologicalSort
  import opened JobGraph

  datatype Endpoint = Endpoint(taskId: string, host: string, port: int)

  datatype PhysicalChannel = PhysicalChannel(
    sourceTaskId: string,
    targetTaskId: string,
    partitioning: Partitioning,
    endpoint: Option<Endpoint>)

  /** A task by its operator's declaration position and its subtask number. */
  type Task = (nat, nat)

  datatype ExecutionGraph = ExecutionGraph(
    jobId: string,
    tasks: seq<Task>,
    deploymentOrder: seq<Task>,
    channels: seq<PhysicalChannel>)

  /** What the job model's field checks demand of operators. */
  predicate ProperOperators(operators: seq<OperatorSpec>) {
    forall i :: 0 <= i < |operators| ==>
      operators[i].id != "" && NoColon(operators[i].id) && operators[i].parallelism >= 1
  }

  function Subtasks(operators: seq<OperatorSpec>, v: nat): seq<Task>
    requires v < |operators|
  {
    seq(operators[v].parallelism, i => (v, i))
  }

  ghost predicate InRange(operators: seq<OperatorSpec>, order: seq<nat>) {
    forall i :: 0 <= i < |order| ==> order[i] < |operators|
  }

  /** The tasks of some operators, in order, each with its subtasks in order. */
  function Expand(operators: seq<OperatorSpec>, order: seq<nat>): seq<Task>
    requires InRange(operators, order)
  {
    if order == [] then []
    else Expand(operators, order[..|order| - 1]) + Subtasks(operators, order[|order| - 1])
  }

  function IdOf(jobId: string, operators: seq<OperatorSpec>, t: Task): string
    requires t.0 < |operators|
  {
    TaskId(jobId, operators[t.0].id, t.1)
  }

  function Channel(jobId: string, source: OperatorSpec, i: nat, target: OperatorSpec, j: nat, p: Partitioning)
    : PhysicalChannel
  {
    PhysicalChannel(TaskId(jobId, source.id, i), TaskId(jobId, target.id, j), p, None)
  }

  /** The channels out of one source subtask: its twin's under FORWARD, all targets otherwise. */
  function Row(jobId: string, source: OperatorSpec, target: OperatorSpec, p: Partitioning, i: nat): seq<PhysicalChannel> {
    if p == Forward then [Channel(jobId, source, i, target, i, p)]
    else seq(target.parallelism, j requires 0 <= j < target.parallelism => Channel(jobId, source, i, target, j, p))
  }

  /** The channels of one edge, source subtask by source subtask. */
  function EdgeChannels(jobId: string, source: OperatorSpec, target: OperatorSpec, p: Partitioning, n: nat)
    : seq<PhysicalChannel>
  {
    if n == 0 then [] else EdgeChannels(jobId, source, target, p, n - 1) + Row(jobId, source, target, p, n - 1)
  }

  /** The channels of the first n edges. */
  function AllChannels(jobId: string, g: StreamGraph, n: nat): seq<PhysicalChannel>
    requires g.digraph.Valid() && g.digraph.size == |g.definition.operators|
    requires n <= |g.digraph.edges| == |g.partitionings|
  {
    if n == 0 then []
    else
      var (u, v) := g.digraph.edges[n - 1];
      var source, target := g.definition.operators[u], g.definition.operators[v];
      AllChannels(jobId, g, n - 1)
      + EdgeChannels(jobId, source, target, g.partitionings[n - 1], source.parallelism)
  }

  datatype ExpansionError = UnequalParallelism

  /** A FORWARD edge between operators of different parallelism. */
  predicate Mismatched(source: OperatorSpec, target: OperatorSpec, p: Partitioning) {
    p == Forward && source.parallelism != target.parallelism
  }

  /** Expands a graph; what graph building has accepted always expands. */
  method BuildExecutionGraph(jobId: string, g: StreamGraph) returns (r: Result<ExecutionGraph, ExpansionError>)
    requires IsStreamGraph(g)
    ensures r.Ok? && r.value.jobId == jobId
    ensures r.value.tasks == Expand(g.definition.operators, g.order)
    ensures r.value.deploymentOrder == Expand(g.definition.operators, Reversed(g.order))
    ensures r.value.channels == AllChannels(jobId, g, |g.digraph.edges|)
  {
    OrderInRange(g);
    var tasks := ExpandTasks(g.definition.operators, g.order);
    var deploymentOrder := ExpandTasks(g.definition.operators, Reversed(g.order));
    NothingMismatched(g);
    var channels := BuildChannels(jobId, g);
    return Ok(ExecutionGraph(jobId, tasks, deploymentOrder, channels.value));
  }

  lemma NothingMismatched(g: StreamGraph)
    requires IsStreamGraph(g)
    ensures forall n :: 0 <= n < |g.digraph.edges| ==>
              !Mismatched(g.definition.operators[g.digraph.edges[n].0], g.definition.operators[g.digraph.edges[n].1],
                          g.partitionings[n])
  {
    hide IsKeyedAnalysis, OnlySourcesLackInput, AnyInput, Greedy, IsTopological, ProperEdges;
  }

  method BuildChannels(jobId: string, g: StreamGraph) returns (r: Result<seq<PhysicalChannel>, ExpansionError>)
    requires g.digraph.Valid() && g.digraph.size == |g.definition.operators|
    requires |g.digraph.edges| == |g.partitionings|
    ensures r.Err? <==> exists n :: 0 <= n < |g.digraph.edges|
                          && Mismatched(g.definition.operators[g.digraph.edges[n].0],
                                        g.definition.operators[g.digraph.edges[n].1], g.partitionings[n])
    ensures r.Ok? ==> r.value == AllChannels(jobId, g, |g.digraph.edges|)
  {
    hide EdgeChannels;
    var channels: seq<PhysicalChannel> := [];
    for n := 0 to |g.digraph.edges|
      invariant channels == AllChannels(jobId, g, n)
      invariant forall m :: 0 <= m < n ==>
                  !Mismatched(g.definition.operators[g.digraph.edges[m].0], g.definition.operators[g.digraph.edges[m].1],
                              g.partitionings[m])
    {
      var (u, v) := g.digraph.edges[n];
      var more := ConnectEdge(jobId, g.definition.operators[u], g.definition.operators[v], g.partitionings[n]);
      if more.Err? {
        return Err(more.error);
      }
      channels := channels + more.value;
    }
    return Ok(channels);
  }

  lemma OrderInRange(g: StreamGraph)
    requires IsStreamGraph(g)
    ensures InRange(g.definition.operators, g.order) && InRange(g.definition.operators, Reversed(g.order))
  {
    forall i | 0 <= i < |g.order| ensures g.order[i] < |g.definition.operators| {
      assert g.order[i] in g.order;
    }
  }

  method ExpandTasks(operators: seq<OperatorSpec>, order: seq<nat>) returns (tasks: seq<Task>)
    requires InRange(operators, order)
    ensures tasks == Expand(operators, order)
  {
    tasks := [];
    for k := 0 to |order|
      invariant tasks == Expand(operators, order[..k])
    {
      var v := order[k];
      assert order[..k + 1][..k] == order[..k];
      for i := 0 to operators[v].parallelism
        invariant tasks == Expand(operators, order[..k]) + Subtasks(operators, v)[..i]
      {
        tasks := tasks + [(v, i)];
      }
      assert Subtasks(operators, v)[..operators[v].parallelism] == Subtasks(operators, v);
    }
    assert order[..|order|] == order;
  }

  /** Zips the subtasks of a FORWARD edge, which must be equally many; pairs every source with every target otherwise. */
  method ConnectEdge(jobId: string, source: OperatorSpec, target: OperatorSpec, p: Partitioning)
    returns (r: Result<seq<PhysicalChannel>, ExpansionError>)
    ensures r.Err? <==> p == Forward && source.parallelism != target.parallelism
    ensures r.Ok? ==> r.value == EdgeChannels(jobId, source, target, p, source.parallelism)
  {
    hide Row, Channel;
    if p == Forward && source.parallelism != target.parallelism {
      return Err(UnequalParallelism);
    }
    var channels: seq<PhysicalChannel> := [];
    for i := 0 to source.parallelism
      invariant channels == EdgeChannels(jobId, source, target, p, i)
    {
      RowIs(jobId, source, target, p, i);
      if p == Forward {
        channels := channels + [Channel(jobId, source, i, target, i, p)];
      } else {
        for j := 0 to target.parallelism
          invariant channels == EdgeChannels(jobId, source, target, p, i) + Row(jobId, source, target, p, i)[..j]
        {
          assert Row(jobId, source, target, p, i)[..j + 1]
              == Row(jobId, source, target, p, i)[..j] + [Channel(jobId, source, i, target, j, p)];
          channels := channels + [Channel(jobId, source, i, target, j, p)];
        }
        assert Row(jobId, source, target, p, i)[..target.parallelism] == Row(jobId, source, target, p, i);
      }
    }
    return Ok(channels);
  }

  lemma RowIs(jobId: string, source: OperatorSpec, target: OperatorSpec, p: Partitioning, i: nat)
    ensures var row := Row(jobId, source, target, p, i);
            if p == Forward then row == [Channel(jobId, source, i, target, i, p)]
            else |row| == target.parallelism
                 && forall j :: 0 <= j < |row| ==> row[j] == Channel(jobId, source, i, target, j, p)
  {
  }

  // ----- deployment order -----

  lemma {:induction false} ExpandMembers(operators: seq<OperatorSpec>, order: seq<nat>, t: Task)
    requires InRange(operators, order)
    ensures t in Expand(operators, order) <==> t.0 in order && t.1 < operators[t.0].parallelism
  {
    if order != [] {
      var init, last := order[..|order| - 1], order[|order| - 1];
      assert order == init + [last];
      ExpandMembers(operators, init, t);
      if t.0 == last && t.1 < operators[last].parallelism {
        assert Subtasks(operators, last)[t.1] == t;
      }
    }
  }

  lemma {:induction false} ExpandDistinct(operators: seq<OperatorSpec>, order: seq<nat>)
    requires InRange(operators, order)
    requires NoDuplicates(order)
    ensures NoDuplicates(Expand(operators, order))
  {
    if order != [] {
      var init, last := order[..|order| - 1], order[|order| - 1];
      assert order == init + [last] && last !in init;
      ExpandDistinct(operators, init);
      forall t | t in Expand(operators, init) ensures t !in Subtasks(operators, last) {
        ExpandMembers(operators, init, t);
      }
      var a, b := Expand(operators, init), Subtasks(operators, last);
      assert forall i :: 0 <= i < |a| ==> a[i] in a;
      assert forall i :: 0 <= i < |b| ==> b[i] in b;
    }
  }

  /** Earlier operators' tasks come earlier. */
  lemma {:induction false} ExpandInOrder(operators: seq<OperatorSpec>, order: seq<nat>, k: nat, i: nat)
    requires InRange(operators, order)
    requires NoDuplicates(order) && k < |Expand(operators, order)| && i < |order|
    requires Expand(operators, order)[k].0 == order[i]
    ensures forall t: Task :: t in Expand(operators, order[..i]) ==> t in Expand(operators, order)[..k]
  {
    var init, last := order[..|order| - 1], order[|order| - 1];
    assert order == init + [last] && last !in init;
    var a, b := Expand(operators, init), Subtasks(operators, last);
    if k < |a| {
      assert a[k] in a;
      ExpandMembers(operators, init, a[k]);
      ExpandInOrder(operators, init, k, i);
      assert init[..i] == order[..i] && (a + b)[..k] == a[..k];
    } else {
      assert b[k - |a|].0 == last;
      assert order[..i] == init;
      assert (a + b)[..k][..|a|] == a;
    }
  }

  ghost predicate ComesBefore(order: seq<nat>, u: nat, v: nat) {
    exists i, j :: 0 <= i < j < |order| && order[i] == u && order[j] == v
  }

  lemma BeforeStays(init: seq<nat>, last: nat, u: nat, v: nat)
    ensures ComesBefore(init, u, v) ==> ComesBefore(init + [last], u, v)
    ensures u in init ==> ComesBefore(init + [last], u, last)
  {
    var order := init + [last];
    if i, j :| 0 <= i < j < |init| && init[i] == u && init[j] == v {
      assert order[i] == u && order[j] == v;
    }
    if u in init {
      var i :| 0 <= i < |init| && init[i] == u;
      assert order[i] == u && order[|init|] == last;
    }
  }

  /** The tasks are in the given order of their operators, and under one operator in the order of their subtasks. */
  lemma {:induction false} ExpandAscends(operators: seq<OperatorSpec>, order: seq<nat>, k: nat, l: nat)
    requires InRange(operators, order) && k < l < |Expand(operators, order)|
    ensures var s, t := Expand(operators, order)[k], Expand(operators, order)[l];
            ComesBefore(order, s.0, t.0) || (s.0 == t.0 && s.1 < t.1)
  {
    hide ComesBefore;
    var init, last := order[..|order| - 1], order[|order| - 1];
    assert order == init + [last];
    var a := Expand(operators, init);
    if l < |a| {
      ExpandAscends(operators, init, k, l);
      BeforeStays(init, last, a[k].0, a[l].0);
    } else if k < |a| {
      assert a[k] in a;
      ExpandMembers(operators, init, a[k]);
      BeforeStays(init, last, a[k].0, last);
    }
  }

  /** The deployment order lists every physical task exactly once. */
  lemma DeploymentOrderIsComplete(g: StreamGraph, t: Task)
    requires IsStreamGraph(g)
    ensures InRange(g.definition.operators, g.order) && InRange(g.definition.operators, Reversed(g.order))
    ensures var order := Expand(g.definition.operators, Reversed(g.order));
            && NoDuplicates(order)
            && (t in order <==> t.0 < |g.definition.operators| && t.1 < g.definition.operators[t.0].parallelism)
            && (t in order <==> t in Expand(g.definition.operators, g.order))
  {
    var r := Reversed(g.order);
    OrderInRange(g);
    forall v | v in r ensures v in g.order {
    }
    forall v | v in g.order ensures v in r {
      var i :| 0 <= i < |g.order| && g.order[i] == v;
      assert r[|r| - 1 - i] == v;
    }
    assert NoDuplicates(r) by {
      forall i, j | 0 <= i < j < |r| ensures r[i] != r[j] {
        assert g.order[|r| - 1 - j] != g.order[|r| - 1 - i];
      }
    }
    AllPlaced(g.digraph, g.order);
    ExpandDistinct(g.definition.operators, r);
    ExpandMembers(g.definition.operators, r, t);
    ExpandMembers(g.definition.operators, g.order, t);
  }

  /**
   Downstream first: when a task's turn comes, every task of every operator that its operator feeds has
   already had its own.
   */
  lemma DownstreamComesFirst(g: StreamGraph, k: nat, e: nat, target: Task)
    requires IsStreamGraph(g) && e < |g.digraph.edges|
    requires InRange(g.definition.operators, Reversed(g.order))
    requires k < |Expand(g.definition.operators, Reversed(g.order))|
    requires Expand(g.definition.operators, Reversed(g.order))[k].0 == g.digraph.edges[e].0
    requires target.0 == g.digraph.edges[e].1 && target.1 < g.definition.operators[target.0].parallelism
    ensures target in Expand(g.definition.operators, Reversed(g.order))[..k]
  {
    hide IsStreamGraph;
    var a, b := TargetBeforeSource(g, e);
    var r := Reversed(g.order);
    ExpandInOrder(g.definition.operators, r, k, a);
    assert target.0 in r[..a] by { assert r[..a][b] == target.0; }
    ExpandMembers(g.definition.operators, r[..a], target);
  }

  lemma TargetBeforeSource(g: StreamGraph, e: nat) returns (a: nat, b: nat)
    requires IsStreamGraph(g) && e < |g.digraph.edges|
    ensures NoDuplicates(Reversed(g.order))
    ensures b < a < |Reversed(g.order)|
    ensures Reversed(g.order)[a] == g.digraph.edges[e].0 && Reversed(g.order)[b] == g.digraph.edges[e].1
  {
    hide IsStreamGraph, NoDuplicates;
    var i, j := SourceBeforeTarget(g, e);
    a, b := |g.order| - 1 - i, |g.order| - 1 - j;
    ReversedDistinct(g.order);
  }

  lemma SourceBeforeTarget(g: StreamGraph, e: nat) returns (i: nat, j: nat)
    requires IsStreamGraph(g) && e < |g.digraph.edges|
    ensures i < j < |g.order| && g.order[i] == g.digraph.edges[e].0 && g.order[j] == g.digraph.edges[e].1
    ensures NoDuplicates(g.order)
  {
    hide IsStreamGraph, NoDuplicates;
    TopologicalParts(g);
    var u, v := g.digraph.edges[e].0, g.digraph.edges[e].1;
    assert v in g.order;
    j :| 0 <= j < |g.order| && g.order[j] == v;
    assert u in g.order[..j];
    i :| 0 <= i < j && g.order[..j][i] == u;
  }

  lemma TopologicalParts(g: StreamGraph)
    requires IsStreamGraph(g)
    ensures NoDuplicates(g.order) && g.digraph.Valid()
    ensures forall v: nat :: v < g.digraph.size ==> v in g.order
    ensures forall j, e :: 0 <= j < |g.order| && 0 <= e < |g.digraph.edges| && g.digraph.edges[e].1 == g.order[j] ==>
              g.digraph.edges[e].0 in g.order[..j]
  {
    hide IsKeyedAnalysis, OnlySourcesLackInput, AnyInput, Greedy, ProperEdges;
    AllPlaced(g.digraph, g.order);
    forall j, e | 0 <= j < |g.order| && 0 <= e < |g.digraph.edges| && g.digraph.edges[e].1 == g.order[j]
      ensures g.digraph.edges[e].0 in g.order[..j]
    {
      assert Ready(g.digraph, g.order[..j], g.order[j]);
    }
  }

  lemma ReversedDistinct(order: seq<nat>)
    requires NoDuplicates(order)
    ensures NoDuplicates(Reversed(order))
  {
    var r := Reversed(order);
    forall i, j | 0 <= i < j < |r| ensures r[i] != r[j] {
      assert order[|r| - 1 - j] != order[|r| - 1 - i];
    }
  }
}
