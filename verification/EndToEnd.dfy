/**
 A stage of reducers over real channels: planned edges, hash routing, bounded channels, framing, byte streams,
 receivers, fan-in and windows together.
 */
module EndToEnd {
  import opened Wrappers
  import opened Records
  import opened Sequences
  import opened Protocol
  import opened Window
  import opened WindowRuns
  import opened Parallel
  import opened Routing
  import opened JobGraph
  import opened Execution
  import opened OutputRoutes
  import opened Emission
  import Channel
  import InTurn
  import Server
  import Delivery
  import FanIn

  /** One physical channel: its run at the sender, and the bytes of it that reached the receiver. */
  datatype Link = Link(
    config: Channel.Config,
    events: seq<Channel.Event>,
    limits: Server.Limits,
    registrations: map<ChannelIdentity, Server.Registration>,
    arrived: seq<Byte>)

  /**
   The task sent `puts` along the channel, each send awaited before the next and before closing; some prefix of the
   bytes that the channel wrote has arrived. Nothing is said about how far either side got.
   */
  ghost predicate LinkRun(link: Link, puts: seq<Record>) {
    var c := link.config;
    && c.Valid() && c.codec.RoundTrips() && Delivery.Accepts(link.limits, c)
    && c.identity in link.registrations && link.registrations[c.identity].activeWriters == {}
    && Channel.Run(c, link.events).Some? && InTurn.UsedInTurn(link.events) && InTurn.Begun(link.events) == puts
    && var s := Channel.Run(c, link.events).value;
       && AllEncodable(c.codec, s.wire, c.maxFrameSize)
       && link.arrived <= EncodeAll(c.codec, s.wire, c.maxFrameSize)
  }

  /** What the receiving end makes of the bytes. */
  ghost function ReceptionOf(link: Link): Server.Reception {
    Server.Handle(link.config.codec, link.limits, link.registrations, link.arrived).reception
  }

  /** If the receiver was told of a clean end, it has received all that was sent. */
  lemma ClosedLinkIsWhole(link: Link, puts: seq<Record>)
    requires LinkRun(link, puts) && ReceptionOf(link).inputClosed > 0
    ensures ReceptionOf(link).delivered == puts
  {
    hide Channel.Run, EncodeAll, Encodable, InTurn.UsedInTurn, InTurn.Begun;
    var c := link.config;
    var s := Channel.Run(c, link.events).value;
    Delivery.NoSilentGap(c, link.events, link.limits, link.registrations, link.arrived);
    InTurn.UsedInTurnIsWhole(c, link.events);
  }

  /** One reducer: its input channels and its run, as a task and as an operator. */
  datatype Reducer = Reducer(
    links: seq<Link>,
    inputs: FanIn.Inputs,
    taskEvents: seq<FanIn.Event>,
    operatorEvents: seq<Event>)

  /**
   The task is fed by what the links' receivers deliver, and hears of an input's end only from a receiver that saw
   a clean one. The operator handles the records that the task processed, with timer calls anywhere.
   */
  ghost predicate WiredUp(s: Stage, r: Reducer) {
    && r.inputs.Valid() && |r.inputs.identities| == |s.upstream| == |r.links|
    && FanIn.Run(r.inputs, r.taskEvents).Some?
    && var task := FanIn.Run(r.inputs, r.taskEvents).value;
       && (forall u :: 0 <= u < |r.links| ==>
             var id := r.inputs.identities[u];
             && id in r.inputs.arriving && r.inputs.arriving[id] == ReceptionOf(r.links[u]).delivered
             && (id in task.ended ==> ReceptionOf(r.links[u]).inputClosed > 0))
       && Arrived(r.operatorEvents) == Bare(task.processed)
  }

  /** Link u of reducer t carries t's share of what upstream subtask u emitted. */
  ghost predicate TaskRun(s: Stage, t: nat, r: Reducer)
    requires s.reducers > 0
  {
    && WiredUp(s, r)
    && forall u :: 0 <= u < |r.links| ==> LinkRun(r.links[u], Share(s.h, s.reducers, t, s.upstream[u]))
  }

  ghost predicate LeftNormally(r: Reducer) {
    FanIn.Run(r.inputs, r.taskEvents).Some? && FanIn.Run(r.inputs, r.taskEvents).value.phase == FanIn.Finished
  }

  /** A task that has left its loop normally has processed every channel's whole share. */
  lemma FinishedTaskHasItsShare(s: Stage, t: nat, r: Reducer, u: nat)
    requires s.reducers > 0 && TaskRun(s, t, r) && LeftNormally(r) && u < |r.links|
    ensures FanIn.From(FanIn.Run(r.inputs, r.taskEvents).value.processed, r.inputs.identities[u])
         == Share(s.h, s.reducers, t, s.upstream[u])
  {
    hide LinkRun, ReceptionOf, Share;
    var task, id := FanIn.Run(r.inputs, r.taskEvents).value, r.inputs.identities[u];
    FanIn.RunsKeepInvariant(r.inputs, r.taskEvents);
    FanIn.LeavingIsComplete(r.inputs, r.taskEvents);
    FanIn.ChannelIsTracked(r.inputs, task, id);
    ClosedLinkIsWhole(r.links[u], Share(s.h, s.reducers, t, s.upstream[u]));
  }

  lemma ProcessedComeFromInputs(r: Reducer)
    requires r.inputs.Valid() && FanIn.Run(r.inputs, r.taskEvents).Some?
    ensures var log := FanIn.Run(r.inputs, r.taskEvents).value.processed;
            forall i :: 0 <= i < |log| ==> log[i].0 in r.inputs.identities
  {
    FanIn.RunsKeepInvariant(r.inputs, r.taskEvents);
  }

  lemma TaskRunIsReducerRun(s: Stage, t: nat, r: Reducer)
    requires s.reducers > 0 && TaskRun(s, t, r) && LeftNormally(r)
    ensures ReducerRun(s, t, r.inputs.identities, FanIn.Run(r.inputs, r.taskEvents).value.processed, r.operatorEvents)
  {
    hide LinkRun, ReceptionOf, Share;
    ProcessedComeFromInputs(r);
    forall u | 0 <= u < |r.links|
      ensures FanIn.From(FanIn.Run(r.inputs, r.taskEvents).value.processed, r.inputs.identities[u])
              == Share(s.h, s.reducers, t, s.upstream[u])
    {
      FinishedTaskHasItsShare(s, t, r, u);
    }
  }

  function OperatorRuns(stage: seq<Reducer>): (runs: seq<seq<Event>>)
    ensures |runs| == |stage| && forall t :: 0 <= t < |stage| ==> runs[t] == stage[t].operatorEvents
  {
    seq(|stage|, t requires 0 <= t < |stage| => stage[t].operatorEvents)
  }

  /** The planned graph of a job, the addresses of its tasks, and which of its operators is the reduce. */
  datatype Plan = Plan(jobId: string, g: StreamGraph, place: Addressing, reduce: nat)

  /** What one upstream task emitted along its edge to the reduce. */
  datatype Sender = Sender(edge: nat, task: Task, records: seq<Record>, along: seq<PhysicalChannel>)

  /** The sender's edge leads into the reduce, and every record that it emitted has gone along it. */
  ghost predicate Feeds(plan: Plan, h: Hashing, sender: Sender) {
    && Planned(plan.g) && IsTask(plan.g, sender.task) && sender.edge < |plan.g.digraph.edges|
    && plan.g.digraph.edges[sender.edge] == (sender.task.0, plan.reduce)
    && plan.reduce < |plan.g.definition.operators| && plan.g.definition.operators[plan.reduce].kind == Reduce
    && WentAlong(plan.jobId, plan.g, plan.place, sender.edge, sender.task, h, sender.records, sender.along)
  }

  /** What the sender put into its channel to reducer t. */
  function PutsTo(plan: Plan, sender: Sender, t: nat): seq<Record>
    requires plan.g.digraph.Valid() && plan.g.digraph.size == |plan.g.definition.operators|
    requires sender.edge < |plan.g.digraph.edges| == |plan.g.partitionings| && |sender.along| == |sender.records|
  {
    TakenBy(sender.records, sender.along,
            ChannelTo(plan.jobId, plan.g, plan.place, sender.edge, sender.task.1, t))
  }

  /** The stage's upstream subtasks are these senders, and its reducers are those of the plan. */
  ghost predicate Fed(plan: Plan, s: Stage, senders: seq<Sender>) {
    && Planned(plan.g) && plan.reduce < |plan.g.definition.operators|
    && s.reducers == plan.g.definition.operators[plan.reduce].parallelism && |senders| == |s.upstream|
    && forall u :: 0 <= u < |senders| ==> Feeds(plan, s.h, senders[u]) && senders[u].records == s.upstream[u]
  }

  /** A whole run of reducer t: as TaskRun, but each link carries what its sender put into the channel. */
  ghost predicate FedRun(plan: Plan, s: Stage, senders: seq<Sender>, t: nat, r: Reducer)
    requires Fed(plan, s, senders) && s.reducers > 0
  {
    && |r.links| == |senders| && WiredUp(s, r)
    && forall u :: 0 <= u < |r.links| ==> LinkRun(r.links[u], PutsTo(plan, senders[u], t))
  }

  lemma PlannedParts(g: StreamGraph)
    requires Planned(g)
    ensures g.digraph.Valid() && g.digraph.size == |g.definition.operators| && |g.partitionings| == |g.digraph.edges|
  {
  }

  lemma ReducesAreHashed(plan: Plan, e: nat)
    requires Planned(plan.g) && e < |plan.g.digraph.edges| && plan.g.digraph.edges[e].1 == plan.reduce
    requires plan.reduce < |plan.g.definition.operators| && plan.g.definition.operators[plan.reduce].kind == Reduce
    ensures |plan.g.partitionings| == |plan.g.digraph.edges| && plan.g.partitionings[e] == Hash
  {
    hide IsStreamGraph;
    PartitioningsAre(plan.g, e);
  }

  /** What a sender put into its channel to reducer t is t's share of what it emitted. */
  lemma PutsAreShare(plan: Plan, h: Hashing, sender: Sender, t: nat)
    requires Feeds(plan, h, sender)
    ensures |sender.along| == |sender.records| && plan.reduce < |plan.g.definition.operators|
    ensures plan.g.definition.operators[plan.reduce].parallelism > 0 && AllKeyed(sender.records)
    ensures PutsTo(plan, sender, t)
         == Share(h, plan.g.definition.operators[plan.reduce].parallelism, t, sender.records)
  {
    hide Planned, IsTask, Selected, ChannelTo, TakenBy, Share;
    PlannedParts(plan.g);
    assert plan.g.partitionings[sender.edge] == Hash by { ReducesAreHashed(plan, sender.edge); }
    EdgeKeepsPartitioning(plan.jobId, plan.g, plan.place, sender.edge, sender.task, h, sender.records, sender.along, t);
    HashedAreKeyed(plan.jobId, plan.g, plan.place, sender.edge, sender.task, h, sender.records, sender.along);
  }

  lemma FedRunIsTaskRun(plan: Plan, s: Stage, senders: seq<Sender>, t: nat, r: Reducer)
    requires Fed(plan, s, senders) && s.reducers > 0 && FedRun(plan, s, senders, t, r)
    ensures TaskRun(s, t, r)
  {
    hide Planned, Feeds, WiredUp, LinkRun, PutsTo, Share;
    forall u | 0 <= u < |r.links| ensures LinkRun(r.links[u], Share(s.h, s.reducers, t, s.upstream[u])) {
      assert Feeds(plan, s.h, senders[u]);
      PutsAreShare(plan, s.h, senders[u], t);
    }
  }

  lemma {:induction false} EmittedAreKeyed(plan: Plan, s: Stage, senders: seq<Sender>, n: nat)
    requires Fed(plan, s, senders) && n <= |s.upstream|
    ensures AllKeyed(Flatten(s.upstream[..n]))
  {
    hide Planned, Feeds;
    if n > 0 {
      EmittedAreKeyed(plan, s, senders, n - 1);
      assert s.upstream[..n][..n - 1] == s.upstream[..n - 1];
      PutsAreShare(plan, s.h, senders[n - 1], 0);
    }
  }

  /**
   End to end. Whatever the channels' interleavings, the cuts of their bytes and the merges at the reducers
   were: if every reducer's task left its loop normally, then the stage's results for every group fold to
   what a single operator makes of all upstream records in sequence.
   */
  lemma FinishedStageIsSequentialFold(plan: Plan, s: Stage, senders: seq<Sender>, stage: seq<Reducer>,
                                      sequential: seq<Event>, g: StateKey, d: Domain)
    requires s.c.size > 0 && s.reducers > 0 && s.h.canonical == s.c.canonical && Fed(plan, s, senders)
    requires s.Folds(g, d) && Commutative(s.c.reduce, d) && |stage| == s.reducers
    requires forall t :: 0 <= t < |stage| ==> FedRun(plan, s, senders, t, stage[t]) && LeftNormally(stage[t])
    requires Arrived(sequential) == Flatten(s.upstream)
    ensures Combine(s.c.reduce, StageResults(s.c, OperatorRuns(stage), g, s.reducers))
         == Combine(s.c.reduce, Results(s.c, sequential, g))
  {
    hide Fed, FedRun, TaskRun, LeftNormally, ReducerRun, Succeeds, Associative, Commutative, AllKeyed, Results, StageResults,
      Combine;
    EmittedAreKeyed(plan, s, senders, |s.upstream|);
    assert s.upstream[..|s.upstream|] == s.upstream;
    var ids := seq(|stage|, t requires 0 <= t < |stage| => stage[t].inputs.identities);
    var logs := seq(|stage|, t requires 0 <= t < |stage| => LogOf(stage[t]));
    forall t | 0 <= t < s.reducers ensures ReducerRun(s, t, ids[t], logs[t], OperatorRuns(stage)[t]) {
      FedRunIsTaskRun(plan, s, senders, t, stage[t]);
      HasRun(s, t, stage[t]);
      TaskRunIsReducerRun(s, t, stage[t]);
    }
    ParallelIsSequential(s, ids, logs, OperatorRuns(stage), sequential, g, d);
  }

  ghost function LogOf(r: Reducer): seq<(ChannelIdentity, Record)> {
    if FanIn.Run(r.inputs, r.taskEvents).Some? then FanIn.Run(r.inputs, r.taskEvents).value.processed else []
  }

  lemma HasRun(s: Stage, t: nat, r: Reducer)
    requires s.reducers > 0 && TaskRun(s, t, r)
    ensures FanIn.Run(r.inputs, r.taskEvents).Some?
  {
  }
}
