/**
 What joins a planned graph to the job manager: the graph's tasks by their ids, the binding of channels after
 scheduling, and what is running when a task is deployed.
 */
module Deployment {
  import opened Wrappers
  import opened Sequences
  import opened TaskIds
  import opened Routing
  import opened TopologicalSort
  import opened JobGraph
  import opened Execution
  import opened OutputRoutes
  import opened Models
  import opened Scheduler
  import opened Lifecycle

  function Ids(jobId: string, operators: seq<OperatorSpec>, tasks: seq<Task>): (r: seq<string>)
    requires forall i :: 0 <= i < |tasks| ==> tasks[i].0 < |operators|
    ensures |r| == |tasks| && forall i :: 0 <= i < |r| ==> r[i] == IdOf(jobId, operators, tasks[i])
  {
    seq(|tasks|, i requires 0 <= i < |tasks| => IdOf(jobId, operators, tasks[i]))
  }

  lemma IdsAreDistinct(jobId: string, g: StreamGraph, s: Task, t: Task)
    requires Planned(g) && IsTask(g, s) && IsTask(g, t)
    requires IdOf(jobId, g.definition.operators, s) == IdOf(jobId, g.definition.operators, t)
    ensures s == t
  {
    hide IsKeyedAnalysis, OnlySourcesLackInput, AnyInput, Greedy, IsTopological, ProperEdges, TaskId;
    var operators := g.definition.operators;
    TaskIdInjective(jobId, operators[s.0].id, s.1, jobId, operators[t.0].id, t.1);
  }

  /** The tasks in the deployment order, and in the order in which the graph lists them. */
  lemma OrdersListTasks(g: StreamGraph)
    requires Planned(g)
    ensures InRange(g.definition.operators, g.order) && InRange(g.definition.operators, Reversed(g.order))
    ensures var a, b := Expand(g.definition.operators, g.order), Expand(g.definition.operators, Reversed(g.order));
            && NoDuplicates(a) && NoDuplicates(b)
            && forall t: Task :: (t in a <==> IsTask(g, t)) && (t in b <==> IsTask(g, t))
  {
    hide IsKeyedAnalysis, OnlySourcesLackInput, AnyInput, Greedy, Expand, ProperEdges;
    OrderInRange(g);
    ExpandDistinct(g.definition.operators, g.order);
    DeploymentOrderIsComplete(g, (0, 0));
    forall t: Task
      ensures t in Expand(g.definition.operators, g.order) <==> IsTask(g, t)
      ensures t in Expand(g.definition.operators, Reversed(g.order)) <==> IsTask(g, t)
    {
      DeploymentOrderIsComplete(g, t);
    }
  }

  /** The ids of distinct tasks are distinct, and carry the job's id. */
  lemma IdsListTasks(jobId: string, g: StreamGraph, tasks: seq<Task>)
    requires Planned(g) && NoDuplicates(tasks) && forall t: Task :: t in tasks <==> IsTask(g, t)
    requires forall i :: 0 <= i < |tasks| ==> tasks[i].0 < |g.definition.operators|
    ensures var ids := Ids(jobId, g.definition.operators, tasks);
            && NoDuplicates(ids) && (forall id :: id in ids ==> BelongsTo(jobId, id))
            && forall id :: id in ids <==> exists t :: IsTask(g, t) && IdOf(jobId, g.definition.operators, t) == id
  {
    hide IsStreamGraph, IdOf;
    var operators := g.definition.operators;
    var ids := Ids(jobId, operators, tasks);
    forall i, j | 0 <= i < j < |ids| ensures ids[i] != ids[j] {
      assert tasks[i] in tasks && tasks[j] in tasks;
      if ids[i] == ids[j] {
        IdsAreDistinct(jobId, g, tasks[i], tasks[j]);
      }
    }
    forall id | id in ids
      ensures BelongsTo(jobId, id) && exists t :: IsTask(g, t) && IdOf(jobId, operators, t) == id
    {
      var i :| 0 <= i < |ids| && ids[i] == id;
      assert tasks[i] in tasks;
      IdBelongs(jobId, g, tasks[i]);
    }
    forall t | IsTask(g, t) ensures IdOf(jobId, operators, t) in ids {
      var i :| 0 <= i < |tasks| && tasks[i] == t;
      assert ids[i] == IdOf(jobId, operators, t);
    }
  }

  lemma IdBelongs(jobId: string, g: StreamGraph, t: Task)
    requires Planned(g) && IsTask(g, t)
    ensures BelongsTo(jobId, IdOf(jobId, g.definition.operators, t))
  {
    hide IsStreamGraph, TaskId;
    assert NoColon(g.definition.operators[t.0].id);
  }

  /** What the manager is given for a planned graph is fit for submission. */
  lemma PlanIsSubmittable(jobId: string, g: StreamGraph)
    requires Planned(g)
    ensures InRange(g.definition.operators, g.order) && InRange(g.definition.operators, Reversed(g.order))
    ensures forall t: Task :: t in Expand(g.definition.operators, g.order) ==> t.0 < |g.definition.operators|
    ensures forall t: Task :: t in Expand(g.definition.operators, Reversed(g.order)) ==> t.0 < |g.definition.operators|
    ensures var ids := Ids(jobId, g.definition.operators, Expand(g.definition.operators, g.order));
            var order := Ids(jobId, g.definition.operators, Expand(g.definition.operators, Reversed(g.order)));
            && NoDuplicates(ids) && NoDuplicates(order) && (forall id :: id in order <==> id in ids)
            && (forall id :: id in ids ==> BelongsTo(jobId, id))
  {
    hide Planned, Expand, IdOf, BelongsTo;
    OrdersListTasks(g);
    var a, b := Expand(g.definition.operators, g.order), Expand(g.definition.operators, Reversed(g.order));
    assert (forall i :: 0 <= i < |a| ==> a[i] in a) && (forall i :: 0 <= i < |b| ==> b[i] in b);
    IdsListTasks(jobId, g, a);
    IdsListTasks(jobId, g, b);
  }

  // ----- channels and their ends -----

  /** A channel belongs to an edge, out of some subtask of its source. */
  ghost predicate FromEdge(jobId: string, g: StreamGraph, c: PhysicalChannel, e: nat, i: nat)
    requires g.digraph.Valid() && g.digraph.size == |g.definition.operators| && |g.partitionings| == |g.digraph.edges|
  {
    && e < |g.digraph.edges|
    && var (u, v) := g.digraph.edges[e];
       && i < g.definition.operators[u].parallelism
       && c in Row(jobId, g.definition.operators[u], g.definition.operators[v], g.partitionings[e], i)
  }

  lemma {:induction false} RowOf(jobId: string, source: OperatorSpec, target: OperatorSpec, p: Partitioning, n: nat,
                                 c: PhysicalChannel) returns (i: nat)
    requires c in EdgeChannels(jobId, source, target, p, n)
    ensures i < n && c in Row(jobId, source, target, p, i)
  {
    if c in Row(jobId, source, target, p, n - 1) {
      i := n - 1;
    } else {
      i := RowOf(jobId, source, target, p, n - 1, c);
    }
  }

  lemma {:induction false} EdgeOf(jobId: string, g: StreamGraph, n: nat, c: PhysicalChannel) returns (e: nat, i: nat)
    requires g.digraph.Valid() && g.digraph.size == |g.definition.operators| && |g.partitionings| == |g.digraph.edges|
    requires n <= |g.digraph.edges| && c in AllChannels(jobId, g, n)
    ensures FromEdge(jobId, g, c, e, i)
  {
    hide EdgeChannels, Row;
    var (u, v) := g.digraph.edges[n - 1];
    var source, target := g.definition.operators[u], g.definition.operators[v];
    if c in EdgeChannels(jobId, source, target, g.partitionings[n - 1], source.parallelism) {
      e := n - 1;
      i := RowOf(jobId, source, target, g.partitionings[n - 1], source.parallelism, c);
    } else {
      e, i := EdgeOf(jobId, g, n - 1, c);
    }
  }

  /** Both ends of every channel are tasks of the graph, at the two ends of one of its edges. */
  lemma ChannelEnds(jobId: string, g: StreamGraph, c: PhysicalChannel) returns (e: nat, s: Task, t: Task)
    requires Planned(g)
    requires c in AllChannels(jobId, g, |g.digraph.edges|)
    ensures e < |g.digraph.edges| && g.digraph.edges[e] == (s.0, t.0) && IsTask(g, s) && IsTask(g, t)
    ensures c.sourceTaskId == IdOf(jobId, g.definition.operators, s)
    ensures c.targetTaskId == IdOf(jobId, g.definition.operators, t)
  {
    hide Planned, TaskId;
    PlannedShape(g);
    var i;
    e, i := EdgeOf(jobId, g, |g.digraph.edges|, c);
    var (u, v) := g.digraph.edges[e];
    var row := Row(jobId, g.definition.operators[u], g.definition.operators[v], g.partitionings[e], i);
    var k :| 0 <= k < |row| && row[k] == c;
    s, t := (u, i), (v, if g.partitionings[e] == Forward then i else k);
    ForwardMatches(g, e);
  }

  lemma ForwardMatches(g: StreamGraph, e: nat)
    requires Planned(g) && e < |g.digraph.edges|
    ensures var (u, v) := g.digraph.edges[e];
            g.partitionings[e] == Forward ==>
              g.definition.operators[u].parallelism == g.definition.operators[v].parallelism
  {
    hide IsKeyedAnalysis, OnlySourcesLackInput, AnyInput, Greedy, IsTopological, ProperEdges;
  }

  /**
   Downstream first, at the deploy calls: when task k of the deployment order is deployed, the tasks at the
   other end of all its outgoing channels are running.
   */
  lemma TargetsAreRunning(jobId: string, g: StreamGraph, scheduled: Tasks, k: nat, n: nat, c: PhysicalChannel)
    requires Planned(g) && InRange(g.definition.operators, Reversed(g.order))
    requires forall t: Task :: t in Expand(g.definition.operators, Reversed(g.order)) ==> t.0 < |g.definition.operators|
    requires var order := Ids(jobId, g.definition.operators, Expand(g.definition.operators, Reversed(g.order)));
             && k < n <= |order| && c.sourceTaskId == order[k]
             && forall i :: 0 <= i < |order| ==> order[i] in scheduled && scheduled[order[i]].place.Some?
    requires c in AllChannels(jobId, g, |g.digraph.edges|)
    ensures var order := Ids(jobId, g.definition.operators, Expand(g.definition.operators, Reversed(g.order)));
            var call := Deploys(scheduled, order, n)[k];
            call.Deploy? && call.taskId == c.sourceTaskId && c.targetTaskId in call.running
  {
    hide Planned, IsTask, Expand, IdOf;
    var tasks := Expand(g.definition.operators, Reversed(g.order));
    var e, s, t := ChannelEnds(jobId, g, c);
    PlannedParts(g);
    OrdersListTasks(g);
    assert tasks[k] in tasks;
    IdsAreDistinct(jobId, g, s, tasks[k]);
    TaskInRange(g, t);
    DownstreamComesFirst(g, k, e, t);
    var j :| 0 <= j < k && tasks[..k][j] == t;
    var order := Ids(jobId, g.definition.operators, tasks);
    assert order[..k][j] == c.targetTaskId;
  }

  lemma PlannedParts(g: StreamGraph)
    requires Planned(g)
    ensures IsStreamGraph(g)
  {
  }

  lemma TaskInRange(g: StreamGraph, t: Task)
    requires IsTask(g, t)
    ensures t.0 < |g.definition.operators| && t.1 < g.definition.operators[t.0].parallelism
  {
  }

  // ----- binding -----

  datatype BindError = UnknownTarget | NotScheduled | UnknownWorker

  /** What keeps a channel from being bound, if anything: its target, the target's placement, or the Worker. */
  function Obstacle(c: PhysicalChannel, tasks: Tasks, ws: Workers): Option<BindError> {
    if c.targetTaskId !in tasks then Some(UnknownTarget)
    else
      match tasks[c.targetTaskId].place
      case None => Some(NotScheduled)
      case Some(place) => if place.0 in ws then None else Some(UnknownWorker)
  }

  /** Where the Worker of a task receives data. */
  function AddressOf(tasks: Tasks, ws: Workers, id: string): (string, int) {
    if id in tasks && tasks[id].place.Some? && tasks[id].place.value.0 in ws
    then (ws[tasks[id].place.value.0].dataHost, ws[tasks[id].place.value.0].dataPort)
    else ("", 0)
  }

  /** The same channel, with the data host and port of the Worker that holds its target. */
  ghost predicate BoundToTarget(c: PhysicalChannel, c': PhysicalChannel, tasks: Tasks, ws: Workers) {
    && c.targetTaskId in tasks && tasks[c.targetTaskId].place.Some? && tasks[c.targetTaskId].place.value.0 in ws
    && var worker := ws[tasks[c.targetTaskId].place.value.0];
       && c'.endpoint == Some(Endpoint(c.targetTaskId, worker.dataHost, worker.dataPort))
       && c'.sourceTaskId == c.sourceTaskId && c'.targetTaskId == c.targetTaskId && c'.partitioning == c.partitioning
  }

  ghost predicate CannotBind(c: PhysicalChannel, tasks: Tasks, ws: Workers, error: BindError) {
    match error
    case UnknownTarget => c.targetTaskId !in tasks
    case NotScheduled => c.targetTaskId in tasks && tasks[c.targetTaskId].place.None?
    case UnknownWorker =>
      c.targetTaskId in tasks && tasks[c.targetTaskId].place.Some? && tasks[c.targetTaskId].place.value.0 !in ws
  }

  /** Gives every channel the data address of the Worker that its target was placed on. */
  method BindEndpoints(channels: seq<PhysicalChannel>, tasks: Tasks, ws: Workers)
    returns (r: Result<seq<PhysicalChannel>, BindError>)
    ensures r.Ok? <==> forall i :: 0 <= i < |channels| ==> Obstacle(channels[i], tasks, ws) == None
    ensures r.Ok? ==> r.value == Bound(channels, id => AddressOf(tasks, ws, id))
    ensures r.Ok? ==> |r.value| == |channels| && forall i :: 0 <= i < |channels| ==> BoundToTarget(channels[i], r.value[i], tasks, ws)
    ensures r.Err? ==>
              exists k: nat :: k < |channels| && CannotBind(channels[k], tasks, ws, r.error)
                && forall i :: 0 <= i < k ==> Obstacle(channels[i], tasks, ws) == None
  {
    var bound: seq<PhysicalChannel> := [];
    var place := id => AddressOf(tasks, ws, id);
    for k := 0 to |channels|
      invariant |bound| == k && forall i :: 0 <= i < k ==> Obstacle(channels[i], tasks, ws) == None
      invariant forall i :: 0 <= i < k ==>
                  bound[i] == Bound(channels, place)[i] && BoundToTarget(channels[i], bound[i], tasks, ws)
    {
      var c := channels[k];
      if c.targetTaskId !in tasks {
        return Err(UnknownTarget);
      }
      if tasks[c.targetTaskId].place.None? {
        return Err(NotScheduled);
      }
      var workerId := tasks[c.targetTaskId].place.value.0;
      if workerId !in ws {
        return Err(UnknownWorker);
      }
      bound := bound + [c.(endpoint := Some(Endpoint(c.targetTaskId, ws[workerId].dataHost, ws[workerId].dataPort)))];
    }
    assert bound == Bound(channels, place);
    return Ok(bound);
  }

  /** Once all tasks of a planned graph are placed on Workers of the table, binding its channels cannot fail. */
  lemma BindingCannotFail(jobId: string, g: StreamGraph, tasks: Tasks, ws: Workers, c: PhysicalChannel)
    requires Planned(g)
    requires forall t: Task :: IsTask(g, t) ==>
               var id := IdOf(jobId, g.definition.operators, t);
               id in tasks && tasks[id].place.Some? && tasks[id].place.value.0 in ws
    requires c in AllChannels(jobId, g, |g.digraph.edges|)
    ensures Obstacle(c, tasks, ws) == None
  {
    hide Planned, IdOf;
    var e, s, t := ChannelEnds(jobId, g, c);
  }
}
