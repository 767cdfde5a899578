/**
 What a task of a planned graph emits over its run (runtime/task.py, 365-440): along every logical edge each record
 goes to exactly one channel, and which records a channel gets is determined by the edge's partitioning.
 */
module Emission {
  import opened Wrappers
  import opened Records
  import opened Sequences
  import opened TaskIds
  import opened Routing
  import opened TopologicalSort
  import opened JobGraph
  import opened Execution
  import opened OutputRoutes
  import opened Parallel

  /** The bound channel of edge e from a subtask of its source to subtask j of its target. */
  function ChannelTo(jobId: string, g: StreamGraph, place: Addressing, e: nat, i: nat, j: nat): PhysicalChannel
    requires g.digraph.Valid() && g.digraph.size == |g.definition.operators|
    requires e < |g.digraph.edges| == |g.partitionings|
  {
    var (u, v) := g.digraph.edges[e];
    Bound([Channel(jobId, g.definition.operators[u], i, g.definition.operators[v], j, g.partitionings[e])], place)[0]
  }

  lemma ChannelsDiffer(jobId: string, g: StreamGraph, place: Addressing, e: nat, i: nat, j: nat, k: nat)
    requires Planned(g) && e < |g.digraph.edges|
    ensures ChannelTo(jobId, g, place, e, i, j) == ChannelTo(jobId, g, place, e, i, k) <==> j == k
  {
    hide IsKeyedAnalysis, OnlySourcesLackInput, AnyInput, Greedy, IsTopological, ProperEdges, TaskId;
    var target := g.definition.operators[g.digraph.edges[e].1];
    if TaskId(jobId, target.id, j) == TaskId(jobId, target.id, k) {
      TaskIdInjective(jobId, target.id, j, jobId, target.id, k);
    }
  }

  /** The channel that the n-th record out of task t takes along edge e, as its route selects it. */
  ghost function Selected(jobId: string, g: StreamGraph, place: Addressing, e: nat, t: Task, h: Hashing, n: nat, key: Json)
    : Result<PhysicalChannel, RoutingError>
    requires Planned(g) && e < |g.digraph.edges|
  {
    EdgeGroupOpens(jobId, g, place, e, t.1);
    var opening := Opened(EdgeGroup(jobId, g, place, e, t.1)).value;
    SelectOne(h, g.partitionings[e], opening, t.1, CursorAfter(g.partitionings[e], |opening|, t.1, n), key).0
  }

  /** The records of a series that one channel took. */
  function TakenBy(records: seq<Record>, along: seq<PhysicalChannel>, c: PhysicalChannel): seq<Record>
    requires |along| == |records|
  {
    if records == [] then []
    else
      var last := |records| - 1;
      TakenBy(records[..last], along[..last], c) + (if along[last] == c then [records[last]] else [])
  }

  /** All records of a series have gone along edge e, each to the channel that the route selects for it. */
  ghost predicate WentAlong(jobId: string, g: StreamGraph, place: Addressing, e: nat, t: Task, h: Hashing,
                            records: seq<Record>, along: seq<PhysicalChannel>)
    requires Planned(g) && e < |g.digraph.edges|
  {
    |along| == |records|
    && forall m: nat :: m < |records| ==> Ok(along[m]) == Selected(jobId, g, place, e, t, h, m, records[m].key)
  }

  lemma SelectedIs(jobId: string, g: StreamGraph, place: Addressing, e: nat, t: Task, h: Hashing, n: nat, key: Json, c: PhysicalChannel)
    requires Planned(g) && IsTask(g, t) && e < |g.digraph.edges| && g.digraph.edges[e].0 == t.0
    requires Selected(jobId, g, place, e, t, h, n, key) == Ok(c)
    ensures var p, parallelism := g.partitionings[e], g.definition.operators[g.digraph.edges[e].1].parallelism;
            && parallelism > 0 && TargetOf(h, p, parallelism, t.1, n, key).Ok?
            && var j := TargetOf(h, p, parallelism, t.1, n, key).value;
               j < parallelism && c == ChannelTo(jobId, g, place, e, t.1, j)
  {
    hide Planned, IsTask, SelectOne, CursorAfter, Opened, EdgeGroup, Bound, Channel, TargetOf;
    PlannedShape(g);
    EdgeGroupOpens(jobId, g, place, e, t.1);
    EdgeSelectsItsTarget(jobId, g, place, e, t, h, n, key);
  }

  /** What a channel ought to get of a series of records. */
  ghost predicate GetsItsDue(h: Hashing, p: Partitioning, parallelism: nat, upstream: nat, j: nat,
                             records: seq<Record>, taken: seq<Record>)
    requires parallelism > 0
  {
    match p
    case Forward => taken == if j == upstream then records else []
    case Hash => taken == Share(h, parallelism, j, records)
    case Rebalance => |taken| == Hits(parallelism, upstream, |records|, j)
  }

  lemma DueOneMore(h: Hashing, p: Partitioning, parallelism: nat, upstream: nat, j: nat, records: seq<Record>,
                   taken: seq<Record>, target: nat)
    requires parallelism > 0 && records != []
    requires GetsItsDue(h, p, parallelism, upstream, j, records[..|records| - 1], taken)
    requires TargetOf(h, p, parallelism, upstream, |records| - 1, records[|records| - 1].key) == Ok(target)
    ensures GetsItsDue(h, p, parallelism, upstream, j, records,
                       taken + (if target == j then [records[|records| - 1]] else []))
  {
    var init, last := records[..|records| - 1], records[|records| - 1];
    assert records == init + [last];
    assert RoutesTo(h, parallelism, j, last) == (StableHashPartition(h, last.key, parallelism) == Ok(j));
  }

  /**
   The partitioning is kept over a whole run: along any edge out of any planned task, target j's channel takes, in the
   order of emission, everything if j is the task's twin (FORWARD), just the records whose key hashes to j
   (HASH), or as many records as j's turns in the cycle that starts at the task's own number (REBALANCE).
   */
  lemma {:induction false} EdgeKeepsPartitioning(jobId: string, g: StreamGraph, place: Addressing, e: nat, t: Task,
                                                 h: Hashing, records: seq<Record>, along: seq<PhysicalChannel>, j: nat)
    requires Planned(g) && IsTask(g, t) && e < |g.digraph.edges| && g.digraph.edges[e].0 == t.0
    requires WentAlong(jobId, g, place, e, t, h, records, along)
    ensures var parallelism := g.definition.operators[g.digraph.edges[e].1].parallelism;
            parallelism > 0
            && GetsItsDue(h, g.partitionings[e], parallelism, t.1, j, records,
                          TakenBy(records, along, ChannelTo(jobId, g, place, e, t.1, j)))
  {
    hide Planned, IsTask, Selected, ChannelTo, TargetOf, GetsItsDue;
    PlannedShape(g);
    EdgeGroupOpens(jobId, g, place, e, t.1);
    var p, parallelism := g.partitionings[e], g.definition.operators[g.digraph.edges[e].1].parallelism;
    if records == [] {
      NothingIsDue(h, p, parallelism, t.1, j);
    } else {
      var n := |records| - 1;
      EdgeKeepsPartitioning(jobId, g, place, e, t, h, records[..n], along[..n], j);
      SelectedIs(jobId, g, place, e, t, h, n, records[n].key, along[n]);
      var target := TargetOf(h, p, parallelism, t.1, n, records[n].key).value;
      ChannelsDiffer(jobId, g, place, e, t.1, target, j);
      DueOneMore(h, p, parallelism, t.1, j, records,
                 TakenBy(records[..n], along[..n], ChannelTo(jobId, g, place, e, t.1, j)), target);
    }
  }

  lemma NothingIsDue(h: Hashing, p: Partitioning, parallelism: nat, upstream: nat, j: nat)
    requires parallelism > 0
    ensures GetsItsDue(h, p, parallelism, upstream, j, [], [])
  {
  }

  /** Each record takes one of the edge's channels, and only that one. */
  lemma EachRecordTakesOneChannel(jobId: string, g: StreamGraph, place: Addressing, e: nat, t: Task, h: Hashing,
                                  records: seq<Record>, along: seq<PhysicalChannel>, m: nat) returns (j: nat)
    requires Planned(g) && IsTask(g, t) && e < |g.digraph.edges| && g.digraph.edges[e].0 == t.0
    requires WentAlong(jobId, g, place, e, t, h, records, along) && m < |records|
    ensures j < g.definition.operators[g.digraph.edges[e].1].parallelism
    ensures forall k: nat :: along[m] == ChannelTo(jobId, g, place, e, t.1, k) <==> k == j
  {
    hide Planned, IsTask, Selected, ChannelTo, TargetOf;
    PlannedShape(g);
    SelectedIs(jobId, g, place, e, t, h, m, records[m].key, along[m]);
    j := TargetOf(h, g.partitionings[e], g.definition.operators[g.digraph.edges[e].1].parallelism, t.1, m, records[m].key).value;
    forall k: nat ensures along[m] == ChannelTo(jobId, g, place, e, t.1, k) <==> k == j {
      ChannelsDiffer(jobId, g, place, e, t.1, j, k);
    }
  }

  /** The real routes are fair: over any run of a REBALANCE edge no two channels' counts differ by more than one. */
  lemma ChannelsAreLevel(jobId: string, g: StreamGraph, place: Addressing, e: nat, t: Task, h: Hashing,
                         records: seq<Record>, along: seq<PhysicalChannel>, a: nat, b: nat)
    requires Planned(g) && IsTask(g, t) && e < |g.digraph.edges| && g.digraph.edges[e].0 == t.0
    requires WentAlong(jobId, g, place, e, t, h, records, along) && g.partitionings[e] == Rebalance
    requires var parallelism := g.definition.operators[g.digraph.edges[e].1].parallelism; a < parallelism && b < parallelism
    ensures |TakenBy(records, along, ChannelTo(jobId, g, place, e, t.1, a))|
         <= |TakenBy(records, along, ChannelTo(jobId, g, place, e, t.1, b))| + 1
  {
    hide Planned, IsTask, WentAlong, ChannelTo, TakenBy;
    PlannedShape(g);
    var parallelism := g.definition.operators[g.digraph.edges[e].1].parallelism;
    EdgeKeepsPartitioning(jobId, g, place, e, t, h, records, along, a);
    EdgeKeepsPartitioning(jobId, g, place, e, t, h, records, along, b);
    HitsCountCycles(parallelism, t.1, |records|, a);
    HitsCountCycles(parallelism, t.1, |records|, b);
  }

  /** What a HASH edge carries is keyed, because a record without a key has no channel. */
  lemma HashedAreKeyed(jobId: string, g: StreamGraph, place: Addressing, e: nat, t: Task, h: Hashing,
                       records: seq<Record>, along: seq<PhysicalChannel>)
    requires Planned(g) && IsTask(g, t) && e < |g.digraph.edges| && g.digraph.edges[e].0 == t.0
    requires WentAlong(jobId, g, place, e, t, h, records, along) && g.partitionings[e] == Hash
    ensures AllKeyed(records)
  {
    hide Planned, IsTask, Selected, ChannelTo;
    PlannedShape(g);
    forall m: nat | m < |records| ensures records[m].key != Null {
      SelectedIs(jobId, g, place, e, t, h, m, records[m].key, along[m]);
    }
  }

  // ----- connecting and emitting -----

  /** One column of what was sent: the channels that one route chose. */
  function Column(sent: seq<seq<PhysicalChannel>>, i: nat): (r: seq<PhysicalChannel>)
    requires forall m :: 0 <= m < |sent| ==> i < |sent[m]|
    ensures |r| == |sent| && forall m :: 0 <= m < |r| ==> r[m] == sent[m][i]
  {
    seq(|sent|, m requires 0 <= m < |sent| => sent[m][i])
  }

  /** The routes of a planned task. */
  function RoutesOf(jobId: string, g: StreamGraph, place: Addressing, t: Task): Result<seq<Group>, ConnectError>
    requires Planned(g) && IsTask(g, t)
  {
    PlannedShape(g);
    var id := IdOf(jobId, g.definition.operators, t);
    Routes(id, Outgoing(Bound(AllChannels(jobId, g, |g.digraph.edges|), place), id))
  }

  /**
   The life of a planned task's outputs: it connects its channels and emits some records. Unless a channel cannot be
   opened, has no target for a record or refuses it, every record has gone along every edge out of the task.
   */
  method ConnectAndEmit(jobId: string, g: StreamGraph, place: Addressing, t: Task, h: Hashing,
                        opens: nat -> bool, records: seq<Record>, accepts: (nat, nat) -> bool)
    returns (sent: Option<seq<seq<PhysicalChannel>>>)
    requires Planned(g) && IsTask(g, t)
    ensures RoutesOf(jobId, g, place, t).Ok?
    ensures sent.Some? ==>
              var groups := RoutesOf(jobId, g, place, t).value;
              && |sent.value| == |records|
              && (forall m :: 0 <= m < |sent.value| ==> |sent.value[m]| == |groups|)
              && forall e: nat, i: nat :: i < |groups| ==> GoesAlong(jobId, g, place, e, t, h, records, sent.value, i, groups[i])
  {
    hide Planned, RoutesOf, Realises, Advanced, WentAlong, NthSelection, TaskId, AllChannels, Outgoing, Bound, MadeFrom, GoesAlong,
      RowOf, AnswersTo, IsTask;
    PlannedRoutes(jobId, g, place, t);
    var routes := Connect(jobId, g, place, t, h, opens);
    if routes.None? {
      return None;
    }
    var rows, error := EmitMany(routes.value, records, accepts, 0);
    if error.Some? {
      return None;
    }
    RoutesCarry(jobId, g, place, t, h, records, rows, routes.value, RoutesOf(jobId, g, place, t).value, accepts);
    return Some(rows);
  }

  /** The routes of a planned task, if all its channels can be opened. */
  method Connect(jobId: string, g: StreamGraph, place: Addressing, t: Task, h: Hashing, opens: nat -> bool)
    returns (routes: Option<seq<OutputRoute>>)
    requires Planned(g) && IsTask(g, t)
    ensures RoutesOf(jobId, g, place, t).Ok?
    ensures routes.Some? ==>
              && |routes.value| == |RoutesOf(jobId, g, place, t).value| && SeparateRouters(routes.value)
              && forall i :: 0 <= i < |routes.value| ==>
                   && routes.value[i].Valid() && Advanced(routes.value[i], 0)
                   && (routes.value[i].router != null ==> fresh(routes.value[i].router))
                   && MadeFrom(routes.value[i], h, t.1, RoutesOf(jobId, g, place, t).value[i])
  {
    hide Planned, RoutesOf, Routes, Realises, Advanced, TaskId, AllChannels, Outgoing, Bound, MadeFrom, FirstFailure,
      InOrder, CanOpen;
    PlannedRoutes(jobId, g, place, t);
    var id := IdOf(jobId, g.definition.operators, t);
    var outgoing := Outgoing(Bound(AllChannels(jobId, g, |g.digraph.edges|), place), id);
    var connected, _ := ConnectOutputs(h, id, t.1, outgoing, opens);
    if connected.Err? {
      return None;
    }
    ghost var groups := RoutesOf(jobId, g, place, t).value;
    forall i | 0 <= i < |connected.value|
      ensures connected.value[i].Valid() && Advanced(connected.value[i], 0)
              && MadeFrom(connected.value[i], h, t.1, groups[i])
    {
      ConnectedIsAdvanced(connected.value[i], h, t.1, groups[i]);
      ConnectedIsMade(connected.value[i], h, t.1, groups[i]);
    }
    return Some(connected.value);
  }

  lemma PlannedRoutes(jobId: string, g: StreamGraph, place: Addressing, t: Task)
    requires Planned(g) && IsTask(g, t)
    ensures g.digraph.Valid() && g.digraph.size == |g.definition.operators| && |g.partitionings| == |g.digraph.edges|
    ensures var id := IdOf(jobId, g.definition.operators, t);
            && RoutesOf(jobId, g, place, t).Ok?
            && RoutesOf(jobId, g, place, t) == Routes(id, Outgoing(Bound(AllChannels(jobId, g, |g.digraph.edges|), place), id))
  {
    hide Planned, Routes, Outgoing, Bound, AllChannels;
    PlannedShape(g);
    OneRoutePerEdge(jobId, g, place, t);
  }

  lemma ConnectedIsMade(r: OutputRoute, h: Hashing, upstream: nat, group: Group)
    requires Realises(r, h, upstream, group)
    ensures MadeFrom(r, h, upstream, group) && r.Valid()
  {
  }

  /** The fixed parts of a connected route. */
  ghost predicate MadeFrom(r: OutputRoute, h: Hashing, upstream: nat, group: Group) {
    && Opened(group).Ok? && r.channels == Opened(group).value && r.channels != []
    && r.hashing == h && r.upstream == upstream && r.partitioning == group.partitioning
  }

  lemma RouteCarries(jobId: string, g: StreamGraph, place: Addressing, e: nat, t: Task, h: Hashing,
                     records: seq<Record>, rows: seq<seq<PhysicalChannel>>, i: nat, r: OutputRoute, group: Group)
    requires Planned(g) && e < |g.digraph.edges| && MadeFrom(r, h, t.1, group)
    requires group == EdgeGroup(jobId, g, place, e, t.1)
    requires |rows| == |records| && forall m :: 0 <= m < |rows| ==> i < |rows[m]|
    requires forall m :: 0 <= m < |rows| ==> Ok(rows[m][i]) == NthSelection(r, m, records[m].key)
    ensures WentAlong(jobId, g, place, e, t, h, records, Column(rows, i))
  {
    hide Planned, SelectOne, CursorAfter, Opened;
    EdgeGroupOpens(jobId, g, place, e, t.1);
  }

  /** If it is the route of edge e, all records have gone along that edge. */
  ghost predicate GoesAlong(jobId: string, g: StreamGraph, place: Addressing, e: nat, t: Task, h: Hashing,
                            records: seq<Record>, rows: seq<seq<PhysicalChannel>>, i: nat, group: Group)
    requires Planned(g) && forall m :: 0 <= m < |rows| ==> i < |rows[m]|
  {
    e < |g.digraph.edges| && group == EdgeGroup(jobId, g, place, e, t.1) ==>
      WentAlong(jobId, g, place, e, t, h, records, Column(rows, i))
  }

  lemma RoutesCarry(jobId: string, g: StreamGraph, place: Addressing, t: Task, h: Hashing,
                    records: seq<Record>, rows: seq<seq<PhysicalChannel>>, routes: seq<OutputRoute>, groups: seq<Group>,
                    accepts: (nat, nat) -> bool)
    requires Planned(g) && |routes| == |groups| && |rows| == |records|
    requires forall i :: 0 <= i < |routes| ==> MadeFrom(routes[i], h, t.1, groups[i])
    requires forall m :: 0 <= m < |rows| ==> |rows[m]| == |routes|
    requires forall m: nat :: m < |rows| ==> RowOf(routes, m, records[m].key, rows[m], AnswersTo(accepts, m))
    ensures forall e: nat, i: nat :: i < |groups| ==> GoesAlong(jobId, g, place, e, t, h, records, rows, i, groups[i])
  {
    hide Planned, MadeFrom, NthSelection, WentAlong, EdgeGroup;
    PlannedShape(g);
    forall e: nat, i: nat | i < |groups| ensures GoesAlong(jobId, g, place, e, t, h, records, rows, i, groups[i]) {
      if e < |g.digraph.edges| && groups[i] == EdgeGroup(jobId, g, place, e, t.1) {
        assert routes[i].channels != [] by { MadeOfChannels(routes[i], h, t.1, groups[i]); }
        RouteCarries(jobId, g, place, e, t, h, records, rows, i, routes[i], groups[i]);
      }
    }
  }

  lemma MadeOfChannels(r: OutputRoute, h: Hashing, upstream: nat, group: Group)
    requires MadeFrom(r, h, upstream, group)
    ensures r.channels != []
  {
  }

  /** Every edge out of a task has a route of the task, and every route is that of such an edge. */
  lemma RoutesAreEdges(jobId: string, g: StreamGraph, place: Addressing, t: Task, e: nat) returns (i: nat)
    requires Planned(g) && IsTask(g, t) && e < |g.digraph.edges| && g.digraph.edges[e].0 == t.0
    ensures RoutesOf(jobId, g, place, t).Ok?
    ensures var groups := RoutesOf(jobId, g, place, t).value;
            i < |groups| && groups[i] == EdgeGroup(jobId, g, place, e, t.1)
  {
    hide Planned, Routes, EdgeGroup;
    PlannedShape(g);
    OneRoutePerEdge(jobId, g, place, t);
    EdgeHasGroup(jobId, g, place, t, |g.digraph.edges|, e);
    var groups := RoutesOf(jobId, g, place, t).value;
    assert EdgeGroup(jobId, g, place, e, t.1) in multiset(groups);
    i :| 0 <= i < |groups| && groups[i] == EdgeGroup(jobId, g, place, e, t.1);
  }

  lemma {:induction false} EdgeHasGroup(jobId: string, g: StreamGraph, place: Addressing, t: Task, n: nat, e: nat)
    requires g.digraph.Valid() && g.digraph.size == |g.definition.operators|
    requires e < n <= |g.digraph.edges| == |g.partitionings| && g.digraph.edges[e].0 == t.0
    ensures EdgeGroup(jobId, g, place, e, t.1) in EdgeGroups(jobId, g, place, t, n)
  {
    hide EdgeGroup;
    if e < n - 1 {
      EdgeHasGroup(jobId, g, place, t, n - 1, e);
    }
  }

  /**
   A task's whole run of outputs, from connecting on: for every edge out of it there is a column of what was sent
   in which each target's channel took just what the edge's partitioning gives it.
   */
  lemma TaskKeepsPartitioning(jobId: string, g: StreamGraph, place: Addressing, t: Task, h: Hashing,
                              records: seq<Record>, sent: seq<seq<PhysicalChannel>>, e: nat) returns (i: nat)
    requires Planned(g) && IsTask(g, t) && e < |g.digraph.edges| && g.digraph.edges[e].0 == t.0
    requires RoutesOf(jobId, g, place, t).Ok? && |sent| == |records|
    requires var groups := RoutesOf(jobId, g, place, t).value;
             && (forall m :: 0 <= m < |sent| ==> |sent[m]| == |groups|)
             && forall d: nat, i: nat :: i < |groups| ==> GoesAlong(jobId, g, place, d, t, h, records, sent, i, groups[i])
    ensures i < |RoutesOf(jobId, g, place, t).value|
    ensures WentAlong(jobId, g, place, e, t, h, records, Column(sent, i))
    ensures var parallelism := g.definition.operators[g.digraph.edges[e].1].parallelism;
            parallelism > 0
            && forall j: nat :: j < parallelism ==>
                 GetsItsDue(h, g.partitionings[e], parallelism, t.1, j, records,
                            TakenBy(records, Column(sent, i), ChannelTo(jobId, g, place, e, t.1, j)))
  {
    hide Planned, IsTask, WentAlong, GetsItsDue, TakenBy, ChannelTo, EdgeGroup, RoutesOf;
    PlannedShape(g);
    i := RoutesAreEdges(jobId, g, place, t, e);
    assert GoesAlong(jobId, g, place, e, t, h, records, sent, i, RoutesOf(jobId, g, place, t).value[i]);
    EdgeGroupOpens(jobId, g, place, e, t.1);
    forall j: nat
      ensures GetsItsDue(h, g.partitionings[e], g.definition.operators[g.digraph.edges[e].1].parallelism, t.1, j, records,
                         TakenBy(records, Column(sent, i), ChannelTo(jobId, g, place, e, t.1, j)))
    {
      EdgeKeepsPartitioning(jobId, g, place, e, t, h, records, Column(sent, i), j);
    }
  }
}
