/**
 The input side of a task (runtime/task.py): several channels are merged into one bounded queue, which the
 operator loop empties until every channel has ended. Runs interleave the connections and the loop freely.
 */
module FanIn {
  import opened Wrappers
  import opened Records
  import opened Protocol
  import opened Sequences

  /** A queued item. The origin of a record is history: the runtime queues the bare record. */
  datatype Entry = Arrived(origin: ChannelIdentity, record: Record) | InputEnded(origin: ChannelIdentity)

  datatype Phase = Looping | Finished | Failed

  /** What a task is given: its input channels, the queue bound, and what each connection delivers. */
  datatype Inputs = Inputs(
    identities: seq<ChannelIdentity>,
    capacity: nat,
    arriving: map<ChannelIdentity, seq<Record>>)
  {
    ghost predicate Valid() {
      NoDuplicates(identities) && (forall id :: id in identities <==> id in arriving)
    }
  }

  datatype State = State(
    queue: seq<Entry>,
    closedInputs: set<ChannelIdentity>,
    recordsIn: nat,
    phase: Phase,
    delivered: map<ChannelIdentity, nat>,              // how many records each connection has put
    ended: set<ChannelIdentity>,                       // connections that have put their end
    processed: seq<(ChannelIdentity, Record)>)         // records given to the operator, in order

  datatype Event =
    | Deliver(id: ChannelIdentity)
    | End(id: ChannelIdentity)
    | InputFails(id: ChannelIdentity)
    | Take(succeeds: bool)
    | Leave

  function Initial(inputs: Inputs): State {
    State([], {}, 0, Looping, map id | id in inputs.arriving :: 0, {}, [])
  }

  predicate Enabled(inputs: Inputs, s: State, e: Event) {
    match e
    case Deliver(id) =>
      && id in inputs.arriving && id in s.delivered && s.delivered[id] < |inputs.arriving[id]|
      && id !in s.ended && |s.queue| < inputs.capacity
    case End(id) =>
      && id in inputs.arriving && id in s.delivered && s.delivered[id] == |inputs.arriving[id]|
      && id !in s.closedInputs && |s.queue| < inputs.capacity
    case InputFails(id) => id in inputs.arriving && s.phase == Looping
    case Take(_) => s.phase == Looping && s.queue != [] && |s.closedInputs| < |inputs.identities|
    case Leave => s.phase == Looping && |s.closedInputs| >= |inputs.identities|
  }

  function Step(inputs: Inputs, s: State, e: Event): State
    requires Enabled(inputs, s, e)
  {
    match e
    case Deliver(id) =>
      s.(queue := s.queue + [Arrived(id, inputs.arriving[id][s.delivered[id]])],
         delivered := s.delivered[id := s.delivered[id] + 1])
    case End(id) => s.(queue := s.queue + [InputEnded(id)], ended := s.ended + {id})
    case InputFails(_) => s.(phase := Failed)
    case Take(succeeds) =>
      (match s.queue[0]
       case InputEnded(id) => s.(queue := s.queue[1..], closedInputs := s.closedInputs + {id})
       case Arrived(id, record) =>
         if !succeeds || record.messageType != Data
         then s.(queue := s.queue[1..], phase := Failed)
         else s.(queue := s.queue[1..], recordsIn := s.recordsIn + 1, processed := s.processed + [(id, record)]))
    case Leave => s.(phase := Finished)
  }

  ghost function Run(inputs: Inputs, events: seq<Event>): Option<State> {
    if events == [] then Some(Initial(inputs))
    else
      match Run(inputs, events[..|events| - 1])
      case None => None
      case Some(s) =>
        var e := events[|events| - 1];
        if Enabled(inputs, s, e) then Some(Step(inputs, s, e)) else None
  }

  /** The records of one channel in a log of processed records. */
  function From(log: seq<(ChannelIdentity, Record)>, id: ChannelIdentity): seq<Record> {
    if log == [] then []
    else
      var last := log[|log| - 1];
      From(log[..|log| - 1], id) + (if last.0 == id then [last.1] else [])
  }

  /** The records of one channel that wait in the queue. */
  function Queued(queue: seq<Entry>, id: ChannelIdentity): seq<Record> {
    if queue == [] then []
    else
      var last := queue[|queue| - 1];
      Queued(queue[..|queue| - 1], id) + (if last.Arrived? && last.origin == id then [last.record] else [])
  }

  lemma QueuedAppend(queue: seq<Entry>, e: Entry, id: ChannelIdentity)
    ensures Queued(queue + [e], id)
         == Queued(queue, id) + (if e.Arrived? && e.origin == id then [e.record] else [])
  {
    assert (queue + [e])[..|queue|] == queue;
  }

  lemma {:induction false} QueuedFromFront(queue: seq<Entry>, id: ChannelIdentity)
    requires queue != []
    ensures Queued(queue, id)
         == (if queue[0].Arrived? && queue[0].origin == id then [queue[0].record] else []) + Queued(queue[1..], id)
  {
    if |queue| > 1 {
      var init := queue[..|queue| - 1];
      QueuedFromFront(init, id);
      assert init[1..] == queue[1..][..|queue| - 2];
    }
  }

  /** No record of this channel is queued. */
  predicate NoRecords(queue: seq<Entry>, id: ChannelIdentity) {
    forall i :: 0 <= i < |queue| && queue[i].Arrived? ==> queue[i].origin != id
  }

  lemma {:induction false} QueuesNothing(queue: seq<Entry>, id: ChannelIdentity)
    requires NoRecords(queue, id)
    ensures Queued(queue, id) == []
  {
    if queue != [] {
      QueuesNothing(queue[..|queue| - 1], id);
    }
  }

  /** Per channel: processed, then queued, is what the connection has put; no record comes behind its end. */
  ghost predicate ChannelInvariant(inputs: Inputs, s: State, id: ChannelIdentity)
    requires id in inputs.arriving
  {
    && id in s.delivered && s.delivered[id] <= |inputs.arriving[id]|
    && From(s.processed, id) <= inputs.arriving[id]
    && (s.phase != Failed ==>
          && From(s.processed, id) + Queued(s.queue, id) == inputs.arriving[id][..s.delivered[id]]
          && (id in s.ended ==> s.delivered[id] == |inputs.arriving[id]|)
          && (id in s.closedInputs ==> id in s.ended && NoRecords(s.queue, id))
          && (forall i :: 0 <= i < |s.queue| && s.queue[i] == InputEnded(id) ==>
                id in s.ended && forall j :: i < j < |s.queue| && s.queue[j].Arrived? ==> s.queue[j].origin != id))
  }

  ghost predicate Invariant(inputs: Inputs, s: State) {
    && (forall id :: id in inputs.arriving ==> ChannelInvariant(inputs, s, id))
    && (forall id :: id in s.closedInputs ==> id in inputs.arriving)
    && (forall i :: 0 <= i < |s.queue| ==> s.queue[i].origin in inputs.arriving)
    && (forall i :: 0 <= i < |s.processed| ==> s.processed[i].0 in inputs.arriving)
    && |s.queue| <= inputs.capacity
    && (s.phase == Finished ==> |s.closedInputs| >= |inputs.identities|)
  }

  lemma FromAppend(log: seq<(ChannelIdentity, Record)>, entry: (ChannelIdentity, Record), id: ChannelIdentity)
    ensures From(log + [entry], id) == From(log, id) + (if entry.0 == id then [entry.1] else [])
  {
    assert (log + [entry])[..|log|] == log;
  }

  lemma PutKeepsChannel(inputs: Inputs, s: State, e: Event, id: ChannelIdentity)
    requires Invariant(inputs, s) && Enabled(inputs, s, e) && id in inputs.arriving
    requires e.Deliver? || e.End?
    ensures ChannelInvariant(inputs, Step(inputs, s, e), id)
  {
    hide From, Queued;
    var s' := Step(inputs, s, e);
    var entry := s'.queue[|s.queue|];
    QueuedAppend(s.queue, entry, id);
    assert s'.queue == s.queue + [entry];
    assert ChannelInvariant(inputs, s, e.id) && ChannelInvariant(inputs, s, id);
    if e.Deliver? && e.id == id {
      ConcatAssociative(From(s.processed, id), Queued(s.queue, id), [entry.record]);
    }
  }

  /** Taking the head off a queue leaves the other items in their places. */
  lemma QueueMovesUp(queue: seq<Entry>, id: ChannelIdentity)
    requires queue != []
    ensures forall j :: 0 <= j < |queue| - 1 ==> queue[1..][j] == queue[j + 1]
    ensures NoRecords(queue, id) ==> NoRecords(queue[1..], id)
  {
  }

  lemma TakeKeepsChannel(inputs: Inputs, s: State, succeeds: bool, id: ChannelIdentity)
    requires Invariant(inputs, s) && Enabled(inputs, s, Take(succeeds)) && id in inputs.arriving
    ensures ChannelInvariant(inputs, Step(inputs, s, Take(succeeds)), id)
  {
    hide From, Queued, NoRecords;
    var first := s.queue[0];
    assert ChannelInvariant(inputs, s, id) && ChannelInvariant(inputs, s, first.origin);
    hide Invariant;
    TakeKeepsRecords(inputs, s, succeeds, id);
    TakeKeepsEnds(inputs, s, succeeds, id);
    hide Step;
  }

  lemma TakeKeepsRecords(inputs: Inputs, s: State, succeeds: bool, id: ChannelIdentity)
    requires Enabled(inputs, s, Take(succeeds)) && id in inputs.arriving && ChannelInvariant(inputs, s, id)
    ensures var s' := Step(inputs, s, Take(succeeds));
            && s'.delivered == s.delivered && From(s'.processed, id) <= inputs.arriving[id]
            && (s'.phase != Failed ==>
                  From(s'.processed, id) + Queued(s'.queue, id) == inputs.arriving[id][..s.delivered[id]])
  {
    hide From, Queued, NoRecords;
    var first := s.queue[0];
    QueuedFromFront(s.queue, id);
    if first.Arrived? && succeeds && first.record.messageType == Data {
      FromAppend(s.processed, (first.origin, first.record), id);
      ConcatAssociative(From(s.processed, id), if first.origin == id then [first.record] else [],
                        Queued(s.queue[1..], id));
    }
  }

  lemma TakeKeepsEnds(inputs: Inputs, s: State, succeeds: bool, id: ChannelIdentity)
    requires Enabled(inputs, s, Take(succeeds)) && id in inputs.arriving && ChannelInvariant(inputs, s, id)
    requires s.queue[0].origin in inputs.arriving && ChannelInvariant(inputs, s, s.queue[0].origin)
    ensures var s' := Step(inputs, s, Take(succeeds));
            && s'.ended == s.ended
            && (s'.phase != Failed ==>
                  && (id in s'.closedInputs ==> id in s'.ended && NoRecords(s'.queue, id))
                  && (forall i :: 0 <= i < |s'.queue| && s'.queue[i] == InputEnded(id) ==>
                        id in s'.ended && forall j :: i < j < |s'.queue| && s'.queue[j].Arrived? ==> s'.queue[j].origin != id))
  {
    hide From, Queued, NoRecords;
    QueueMovesUp(s.queue, id);
    if s.queue[0].InputEnded? {
      EndIsLast(s.queue, s.queue[0].origin);
    }
  }

  lemma EndIsLast(queue: seq<Entry>, id: ChannelIdentity)
    requires queue != [] && forall j :: 0 < j < |queue| && queue[j].Arrived? ==> queue[j].origin != id
    ensures NoRecords(queue[1..], id)
  {
  }

  lemma StepKeepsInvariant(inputs: Inputs, s: State, e: Event)
    requires Invariant(inputs, s) && Enabled(inputs, s, e)
    ensures Invariant(inputs, Step(inputs, s, e))
  {
    hide ChannelInvariant;
    var s' := Step(inputs, s, e);
    forall id | id in inputs.arriving ensures ChannelInvariant(inputs, s', id) {
      match e {
        case Take(succeeds) => TakeKeepsChannel(inputs, s, succeeds, id);
        case InputFails(_) => PhaseKeepsChannel(inputs, s, Failed, id);
        case Leave => PhaseKeepsChannel(inputs, s, Finished, id);
        case _ => PutKeepsChannel(inputs, s, e, id);
      }
    }
  }

  lemma PhaseKeepsChannel(inputs: Inputs, s: State, phase: Phase, id: ChannelIdentity)
    requires id in inputs.arriving && ChannelInvariant(inputs, s, id) && s.phase == Looping
    ensures ChannelInvariant(inputs, s.(phase := phase), id)
  {
  }

  lemma {:induction false} RunsKeepInvariant(inputs: Inputs, events: seq<Event>)
    requires inputs.Valid() && Run(inputs, events).Some?
    ensures Invariant(inputs, Run(inputs, events).value)
  {
    hide Step, Invariant;
    if events == [] {
      InitialIsValid(inputs);
    } else {
      RunsKeepInvariant(inputs, events[..|events| - 1]);
      StepKeepsInvariant(inputs, Run(inputs, events[..|events| - 1]).value, events[|events| - 1]);
    }
  }

  lemma InitialIsValid(inputs: Inputs)
    ensures Invariant(inputs, Initial(inputs))
  {
  }

  /** Only DATA reaches the operator, and every record that did is counted; a control message fails the task. */
  lemma {:induction false} OnlyDataIsProcessed(inputs: Inputs, events: seq<Event>)
    requires Run(inputs, events).Some?
    ensures var s := Run(inputs, events).value;
            && s.recordsIn == |s.processed|
            && forall i :: 0 <= i < |s.processed| ==> s.processed[i].1.messageType == Data
  {
    if events != [] {
      OnlyDataIsProcessed(inputs, events[..|events| - 1]);
    }
  }

  /** What one turn of the loop does with a record: it fails the task unless it is DATA and the operator accepts it. */
  lemma TurnFailsIff(inputs: Inputs, s: State, succeeds: bool)
    requires Enabled(inputs, s, Take(succeeds)) && s.queue[0].Arrived?
    ensures var s' := Step(inputs, s, Take(succeeds));
            && s'.queue == s.queue[1..]
            && (s'.phase == Failed <==> !succeeds || s.queue[0].record.messageType != Data)
            && s'.processed == s.processed + (if s'.phase == Failed then [] else [(s.queue[0].origin, s.queue[0].record)])
  {
  }

  /** At all times the operator has processed, of every channel, a prefix of its records in their order. */
  lemma ProcessedArePrefixes(inputs: Inputs, events: seq<Event>, id: ChannelIdentity)
    requires inputs.Valid() && Run(inputs, events).Some? && id in inputs.arriving
    ensures From(Run(inputs, events).value.processed, id) <= inputs.arriving[id]
    ensures |Run(inputs, events).value.queue| <= inputs.capacity
  {
    RunsKeepInvariant(inputs, events);
  }

  /**
   The loop can leave normally only when every channel's end was dequeued, and then every record of every
   channel has been processed exactly once, in its channel's order.
   */
  lemma LeavingIsComplete(inputs: Inputs, events: seq<Event>)
    requires inputs.Valid() && Run(inputs, events).Some? && Run(inputs, events).value.phase == Finished
    ensures var s := Run(inputs, events).value;
            && (forall id :: id in inputs.arriving <==> id in s.closedInputs)
            && (forall id :: id in inputs.arriving ==> From(s.processed, id) == inputs.arriving[id])
  {
    RunsKeepInvariant(inputs, events);
    var s := Run(inputs, events).value;
    var all := set id | id in inputs.arriving;
    NoDuplicatesCardinality(inputs.identities, all);
    assert s.closedInputs <= all;
    if s.closedInputs != all {
      var missing :| missing in all && missing !in s.closedInputs;
      SubsetCardinality(s.closedInputs, all - {missing});
    }
    forall id | id in inputs.arriving ensures From(s.processed, id) == inputs.arriving[id] {
      assert ChannelInvariant(inputs, s, id);
      QueuesNothing(s.queue, id);
    }
  }

  lemma {:induction false} NoDuplicatesCardinality(ids: seq<ChannelIdentity>, all: set<ChannelIdentity>)
    requires NoDuplicates(ids) && forall id :: id in ids <==> id in all
    ensures |ids| == |all|
  {
    if ids == [] {
      assert all == {};
    } else {
      var init, last := ids[..|ids| - 1], ids[|ids| - 1];
      assert forall id :: id in init <==> id in all - {last};
      NoDuplicatesCardinality(init, all - {last});
    }
  }

  lemma {:induction false} SubsetCardinality(a: set<ChannelIdentity>, b: set<ChannelIdentity>)
    requires a <= b
    ensures |a| <= |b|
  {
    if a != {} {
      var x :| x in a;
      SubsetCardinality(a - {x}, b - {x});
    }
  }

  lemma ChannelIsTracked(inputs: Inputs, s: State, id: ChannelIdentity)
    requires Invariant(inputs, s) && id in inputs.arriving
    ensures id in s.delivered && (s.phase != Failed && id in s.closedInputs ==> id in s.ended)
  {
    assert ChannelInvariant(inputs, s, id);
  }

  /** What comes of a put into the input queue; without room it waits. */
  datatype Outcome = Queued | NoRoom | UnknownInput | NotRunning | EndedTwice

  /** The fields of the runtime that the input side uses; the origin tags and counts are history. */
  class TaskRuntime {
    const inputs: Inputs
    var inputQueue: seq<Entry>
    var closedInputs: set<ChannelIdentity>
    var recordsIn: nat
    var phase: Phase
    ghost var delivered: map<ChannelIdentity, nat>
    ghost var ended: set<ChannelIdentity>
    var processed: seq<(ChannelIdentity, Record)>

    ghost function Snapshot(): State
      reads this
    {
      State(inputQueue, closedInputs, recordsIn, phase, delivered, ended, processed)
    }

    ghost predicate Valid()
      reads this
    {
      inputs.Valid() && Invariant(inputs, Snapshot())
    }

    constructor (inputs: Inputs)
      requires inputs.Valid()
      ensures Valid() && this.inputs == inputs && Snapshot() == Initial(inputs)
    {
      this.inputs := inputs;
      inputQueue, closedInputs, recordsIn, phase, processed := [], {}, 0, Looping, [];
      delivered, ended := map id | id in inputs.arriving :: 0, {};
      new;
      InitialIsValid(inputs);
    }

    /**
     One put of accept_records: the next record of its connection, once the queue has room. Whether the task is
     running is asked only when a batch begins.
     */
    method AcceptRecord(identity: ChannelIdentity, record: Record, beginsBatch: bool) returns (outcome: Outcome)
      requires Valid()
      requires identity in inputs.arriving ==>
                 && identity !in ended && identity in delivered && delivered[identity] < |inputs.arriving[identity]|
                 && record == inputs.arriving[identity][delivered[identity]]
      modifies this
      ensures Valid()
      ensures outcome == if identity !in inputs.identities then UnknownInput
                         else if beginsBatch && old(phase) != Looping then NotRunning
                         else if |old(inputQueue)| >= inputs.capacity then NoRoom else Outcome.Queued
      ensures Snapshot() == if outcome == Outcome.Queued then Step(inputs, old(Snapshot()), Deliver(identity)) else old(Snapshot())
    {
      hide Invariant;
      if identity !in inputs.identities {
        return UnknownInput;
      }
      if beginsBatch && phase != Looping {
        return NotRunning;
      }
      if |inputQueue| >= inputs.capacity {
        return NoRoom;
      }
      StepKeepsInvariant(inputs, Snapshot(), Deliver(identity));
      inputQueue := inputQueue + [Arrived(identity, record)];
      delivered := delivered[identity := delivered[identity] + 1];
      return Outcome.Queued;
    }

    /** input_closed: the channel's end goes through the same queue; once it was dequeued, a second end is an error. */
    method InputClosed(identity: ChannelIdentity) returns (outcome: Outcome)
      requires Valid()
      requires identity in inputs.arriving && identity !in closedInputs ==>
                 identity in delivered && delivered[identity] == |inputs.arriving[identity]|
      modifies this
      ensures Valid()
      ensures outcome == if identity !in inputs.identities then UnknownInput
                         else if identity in old(closedInputs) then EndedTwice
                         else if |old(inputQueue)| >= inputs.capacity then NoRoom else Outcome.Queued
      ensures Snapshot() == if outcome == Outcome.Queued then Step(inputs, old(Snapshot()), End(identity)) else old(Snapshot())
    {
      hide Invariant;
      if identity !in inputs.identities {
        return UnknownInput;
      }
      if identity in closedInputs {
        return EndedTwice;
      }
      if |inputQueue| >= inputs.capacity {
        return NoRoom;
      }
      StepKeepsInvariant(inputs, Snapshot(), End(identity));
      inputQueue := inputQueue + [InputEnded(identity)];
      ended := ended + {identity};
      return Outcome.Queued;
    }

    /** One iteration of the operator loop with an item at hand; `succeeds` is whether the operator raises. */
    method ProcessNext(succeeds: bool)
      requires Valid() && Enabled(inputs, Snapshot(), Take(succeeds))
      modifies this
      ensures Valid() && Snapshot() == Step(inputs, old(Snapshot()), Take(succeeds))
    {
      hide Invariant;
      StepKeepsInvariant(inputs, Snapshot(), Take(succeeds));
      var item := inputQueue[0];
      inputQueue := inputQueue[1..];
      match item {
        case InputEnded(origin) => closedInputs := closedInputs + {origin};
        case Arrived(origin, record) =>
          if record.messageType != Data || !succeeds {
            phase := Failed;
          } else {
            recordsIn := recordsIn + 1;
            processed := processed + [(origin, record)];
          }
      }
    }
  }
}
