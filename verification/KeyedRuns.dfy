/**
 The keyed analysis against what happens at run time: whatever records the sources produce, whatever the
 UDFs return, and in whatever order records are processed, an operator marked keyed emits only keyed records.
 */
module KeyedRuns {
  import opened Wrappers
  import opened Records
  import opened Routing
  import opened TopologicalSort
  import opened JobGraph
  import Window

  /** The user functions of each operator; None where one raises or returns something that is not JSON. */
  datatype Udfs = Udfs(
    mapPayload: (nat, Json) -> Option<Json>,
    selectKey: (nat, Json) -> Option<Json>,
    window: nat -> Window.Config,
    hashing: Hashing)

  /** Everything each operator has emitted, and the tables of the reduce subtasks. */
  datatype State = State(emitted: map<nat, seq<Record>>, tables: map<(nat, nat), Window.Table>)

  datatype Event =
    | SourceEmits(operator: nat, record: Record)
    | Processes(operator: nat, subtask: nat, record: Record)
    | Ticks(operator: nat, subtask: nat, now: int)

  datatype RunError = UdfFailed | NullKeySelected | ReduceUnkeyed | HashWithoutKey

  function EmittedBy(s: State, v: nat): seq<Record> {
    if v in s.emitted then s.emitted[v] else []
  }

  function TableOf(s: State, v: nat, subtask: nat): Window.Table {
    if (v, subtask) in s.tables then s.tables[(v, subtask)] else map[]
  }

  /** A record reaches an operator only from the operators at the other end of its edges. */
  ghost predicate MayReceive(g: StreamGraph, s: State, v: nat, r: Record) {
    exists i :: 0 <= i < |g.digraph.edges| && g.digraph.edges[i].1 == v && r in EmittedBy(s, g.digraph.edges[i].0)
  }

  ghost predicate Enabled(g: StreamGraph, u: Udfs, s: State, e: Event) {
    && e.operator < |g.definition.operators|
    && match e
       case SourceEmits(v, _) => g.definition.operators[v].kind == Source
       case Processes(v, _, r) => g.definition.operators[v].kind != Source && MayReceive(g, s, v, r)
       case Ticks(v, subtask, _) =>
         && g.definition.operators[v].kind == Reduce
         && Window.OfSize(u.window(v).size, TableOf(s, v, subtask).Keys)
  }

  /** One operator on one record: its outputs and its new table. */
  function ProcessRecord(kind: OperatorType, u: Udfs, v: nat, table: Window.Table, r: Record)
    : Result<(seq<Record>, Window.Table), RunError>
    requires u.window(v).size > 0
  {
    match kind
    case Map =>
      (match u.mapPayload(v, r.payload)
       case None => Err(UdfFailed)
       case Some(result) => Ok((if result == Null then [] else [r.(payload := result)], table)))
    case KeyBy =>
      (match u.selectKey(v, r.payload)
       case None => Err(UdfFailed)
       case Some(key) => if key == Null then Err(NullKeySelected) else Ok(([r.(key := key)], table)))
    case Reduce =>
      (match Window.Process(u.window(v), table, r)
       case Err(error) => Err(if error == Window.UnkeyedRecord then ReduceUnkeyed else UdfFailed)
       case Ok(table') => Ok(([], table')))
    case _ => Ok(([], table))
  }

  /** Sending one record along one edge; only HASH can refuse it. */
  function SendAlong(u: Udfs, partitioning: Partitioning, parallelism: nat, r: Record): Option<RunError>
    requires parallelism > 0
  {
    if partitioning == Hash && StableHashPartition(u.hashing, r.key, parallelism).Err?
    then Some(HashWithoutKey)
    else None
  }

  ghost predicate Sizes(u: Udfs) {
    forall v: nat :: u.window(v).size > 0
  }

  /** The state after an event; a failing operator emits nothing and keeps its table. */
  ghost function Step(g: StreamGraph, u: Udfs, s: State, e: Event): State
    requires Sizes(u) && Enabled(g, u, s, e)
  {
    match e
    case SourceEmits(v, r) => s.(emitted := s.emitted[v := EmittedBy(s, v) + [r]])
    case Processes(v, subtask, r) =>
      (match ProcessRecord(g.definition.operators[v].kind, u, v, TableOf(s, v, subtask), r)
       case Err(_) => s
       case Ok((outputs, table)) =>
         State(s.emitted[v := EmittedBy(s, v) + outputs], s.tables[(v, subtask) := table]))
    case Ticks(v, subtask, now) =>
      var table := TableOf(s, v, subtask);
      var out := Window.Emissions(u.window(v), table, now);
      State(s.emitted[v := EmittedBy(s, v) + seq(|out|, i requires 0 <= i < |out| => out[i].1)],
            s.tables[(v, subtask) := table - Window.Due(table, now)])
  }

  ghost function Run(g: StreamGraph, u: Udfs, events: seq<Event>): Option<State>
    requires Sizes(u)
  {
    if events == [] then Some(State(map[], map[]))
    else
      match Run(g, u, events[..|events| - 1])
      case None => None
      case Some(s) =>
        var e := events[|events| - 1];
        if Enabled(g, u, s, e) then Some(Step(g, u, s, e)) else None
  }

  ghost predicate Keyed(records: seq<Record>) {
    forall i :: 0 <= i < |records| ==> records[i].key != Null
  }

  ghost predicate KeyedTable(u: Udfs, v: nat, table: Window.Table) {
    Window.OfSize(u.window(v).size, table.Keys) && forall k :: k in table ==> table[k].key != Null
  }

  ghost predicate Invariant(g: StreamGraph, u: Udfs, s: State) {
    && (forall v: nat :: v < |g.keyed| && g.keyed[v] ==> Keyed(EmittedBy(s, v)))
    && (forall v: nat, subtask: nat :: KeyedTable(u, v, TableOf(s, v, subtask)))
  }

  /** A keyed operator other than key_by receives only keyed records. */
  lemma InputsAreKeyed(g: StreamGraph, u: Udfs, s: State, v: nat, r: Record)
    requires IsStreamGraph(g) && Invariant(g, u, s) && v < |g.definition.operators|
    requires g.keyed[v] && g.definition.operators[v].kind != KeyBy && MayReceive(g, s, v, r)
    ensures r.key != Null
  {
    var i :| 0 <= i < |g.digraph.edges| && g.digraph.edges[i].1 == v && r in EmittedBy(s, g.digraph.edges[i].0);
    assert g.keyed[v] == KeyedRule(g.digraph, Kinds(g.definition), g.keyed, v);
    assert Keyed(EmittedBy(s, g.digraph.edges[i].0));
  }

  /** What an operator emits is keyed if it is a key_by, or a map over a keyed record; reduce emits later. */
  lemma ProcessingKeepsKeys(kind: OperatorType, u: Udfs, v: nat, table: Window.Table, r: Record)
    requires Sizes(u) && KeyedTable(u, v, table)
    ensures var result := ProcessRecord(kind, u, v, table, r);
            result.Ok? ==>
              && KeyedTable(u, v, result.value.1)
              && (kind == KeyBy || r.key != Null ==> Keyed(result.value.0))
  {
  }

  lemma TimersKeepKeys(u: Udfs, v: nat, table: Window.Table, now: int)
    requires Sizes(u) && KeyedTable(u, v, table)
    ensures KeyedTable(u, v, table - Window.Due(table, now))
    ensures forall i :: 0 <= i < |Window.Emissions(u.window(v), table, now)| ==>
              Window.Emissions(u.window(v), table, now)[i].1.key != Null
  {
  }

  /** Appending keyed records to one operator's output, and replacing one table by a keyed one. */
  lemma UpdateKeepsInvariant(g: StreamGraph, u: Udfs, s: State, v: nat, subtask: nat,
                             outputs: seq<Record>, table: Window.Table, s': State)
    requires Invariant(g, u, s) && KeyedTable(u, v, table)
    requires v < |g.keyed| && g.keyed[v] ==> Keyed(outputs)
    requires s' == State(s.emitted[v := EmittedBy(s, v) + outputs], s.tables[(v, subtask) := table])
    ensures Invariant(g, u, s')
  {
    hide KeyedTable;
    forall w: nat | w < |g.keyed| && g.keyed[w] ensures Keyed(EmittedBy(s', w)) {
      assert Keyed(EmittedBy(s, w));
    }
    forall w: nat, k: nat ensures KeyedTable(u, w, TableOf(s', w, k)) {
      assert KeyedTable(u, w, TableOf(s, w, k));
    }
  }

  lemma StepKeepsInvariant(g: StreamGraph, u: Udfs, s: State, e: Event)
    requires Sizes(u) && IsStreamGraph(g) && Invariant(g, u, s) && Enabled(g, u, s, e)
    ensures Invariant(g, u, Step(g, u, s, e))
  {
    var v, s' := e.operator, Step(g, u, s, e);
    assert g.keyed[v] == KeyedRule(g.digraph, Kinds(g.definition), g.keyed, v);
    match e {
      case SourceEmits(_, r) =>
        hide IsStreamGraph;
        assert forall w, k :: TableOf(s', w, k) == TableOf(s, w, k);
        assert forall w :: w != v ==> EmittedBy(s', w) == EmittedBy(s, w);
      case Processes(_, subtask, r) =>
        var table := TableOf(s, v, subtask);
        assert KeyedTable(u, v, table);
        if g.keyed[v] && g.definition.operators[v].kind != KeyBy {
          InputsAreKeyed(g, u, s, v, r);
        }
        hide IsStreamGraph;
        ProcessingKeepsKeys(g.definition.operators[v].kind, u, v, table, r);
        var result := ProcessRecord(g.definition.operators[v].kind, u, v, table, r);
        if result.Ok? {
          UpdateKeepsInvariant(g, u, s, v, subtask, result.value.0, result.value.1, s');
        }
      case Ticks(_, subtask, now) =>
        hide IsStreamGraph;
        var table := TableOf(s, v, subtask);
        assert KeyedTable(u, v, table);
        TimersKeepKeys(u, v, table, now);
        var out := Window.Emissions(u.window(v), table, now);
        var outputs := seq(|out|, i requires 0 <= i < |out| => out[i].1);
        UpdateKeepsInvariant(g, u, s, v, subtask, outputs, table - Window.Due(table, now), s');
    }
  }

  lemma {:induction false} RunsKeepInvariant(g: StreamGraph, u: Udfs, events: seq<Event>)
    requires Sizes(u) && IsStreamGraph(g) && Run(g, u, events).Some?
    ensures Invariant(g, u, Run(g, u, events).value)
  {
    hide IsStreamGraph, Enabled, Step;
    if events != [] {
      RunsKeepInvariant(g, u, events[..|events| - 1]);
      StepKeepsInvariant(g, u, Run(g, u, events[..|events| - 1]).value, events[|events| - 1]);
    }
  }

  lemma HashNeverFails(g: StreamGraph, u: Udfs, s: State, i: nat, r: Record, parallelism: nat)
    requires IsStreamGraph(g) && Invariant(g, u, s) && parallelism > 0
    requires i < |g.digraph.edges| && r in EmittedBy(s, g.digraph.edges[i].0)
    ensures SendAlong(u, g.partitionings[i], parallelism, r) == None
  {
    var source := g.digraph.edges[i].0;
    if g.partitionings[i] == Hash {
      assert g.keyed[source];
      assert Keyed(EmittedBy(s, source));
    }
  }

  lemma ReduceNeverUnkeyed(g: StreamGraph, u: Udfs, s: State, v: nat, table: Window.Table, r: Record)
    requires Sizes(u) && IsStreamGraph(g) && Invariant(g, u, s)
    requires v < |g.definition.operators| && MayReceive(g, s, v, r)
    ensures ProcessRecord(g.definition.operators[v].kind, u, v, table, r) != Err(ReduceUnkeyed)
  {
    hide MayReceive, Window.Process;
    if g.definition.operators[v].kind == Reduce {
      ReducesAreKeyed(g, v);
      InputsAreKeyed(g, u, s, v, r);
      hide IsStreamGraph, Invariant;
      KeyedIsAccepted(u.window(v), table, r);
    } else {
      hide IsStreamGraph, Invariant;
    }
  }

  lemma ReducesAreKeyed(g: StreamGraph, v: nat)
    requires IsStreamGraph(g) && v < |g.definition.operators| && g.definition.operators[v].kind == Reduce
    ensures g.keyed[v]
  {
    hide IsKeyedAnalysis, OnlySourcesLackInput, AnyInput, Greedy, IsTopological;
  }

  lemma KeyedIsAccepted(c: Window.Config, table: Window.Table, r: Record)
    requires c.size > 0 && r.key != Null
    ensures Window.Process(c, table, r) != Err(Window.UnkeyedRecord)
  {
  }

  /**
   On every run of an accepted graph, an operator marked keyed has emitted only records with a key; so no
   record can raise the null-key error of a HASH edge, nor the unkeyed error of a reduce.
   */
  lemma KeyErrorsAreUnreachable(g: StreamGraph, u: Udfs, events: seq<Event>)
    requires Sizes(u) && IsStreamGraph(g) && Run(g, u, events).Some?
    ensures var s := Run(g, u, events).value;
            && (forall v: nat :: v < |g.keyed| && g.keyed[v] ==> Keyed(EmittedBy(s, v)))
            && (forall i: nat, r, p: nat ::
                  i < |g.digraph.edges| && p > 0 && r in EmittedBy(s, g.digraph.edges[i].0)
                  ==> SendAlong(u, g.partitionings[i], p, r) == None)
            && (forall v: nat, table, r :: v < |g.definition.operators| && MayReceive(g, s, v, r)
                  ==> ProcessRecord(g.definition.operators[v].kind, u, v, table, r) != Err(ReduceUnkeyed))
  {
    RunsKeepInvariant(g, u, events);
    var s := Run(g, u, events).value;
    forall i: nat, r, p: nat | i < |g.digraph.edges| && p > 0 && r in EmittedBy(s, g.digraph.edges[i].0)
      ensures SendAlong(u, g.partitionings[i], p, r) == None
    {
      HashNeverFails(g, u, s, i, r, p);
    }
    forall v: nat, table, r | v < |g.definition.operators| && MayReceive(g, s, v, r)
      ensures ProcessRecord(g.definition.operators[v].kind, u, v, table, r) != Err(ReduceUnkeyed)
    {
      ReduceNeverUnkeyed(g, u, s, v, table, r);
    }
  }
}
