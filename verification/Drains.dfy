/** What the answers to a channel's drains decide, and what the channel counts (runtime/channel.py). */
module Drains {
  import opened Wrappers
  import opened Records
  import opened Sequences
  import opened Protocol
  import opened Channel

  // ----- failed drains -----

  ghost predicate DrainFails(e: Event) {
    e == SenderDrains(false) || e == CloseDrains(false)
  }

  lemma NeverRunsAgain(c: Config, s: State, e: Event)
    requires Enabled(c, s, e) && s.lifecycle != New && s.lifecycle != Running
    ensures Step(c, s, e).lifecycle != New && Step(c, s, e).lifecycle != Running
    ensures !e.SendBegins? && !e.CloseBegins?
  {
    hide Iterate, Encodable, HelloFrame;
  }

  lemma FailedDrainFails(c: Config, s: State, e: Event)
    requires Enabled(c, s, e) && DrainFails(e)
    ensures Step(c, s, e).lifecycle == Failed
  {
  }

  /**
   A failed drain, of a batch or of END_OF_STREAM, makes the channel FAILED at once; and from then on no send and no close
   begins any more.
   */
  lemma {:induction false} FailedDrainIsFinal(c: Config, events: seq<Event>, k: nat)
    requires Run(c, events).Some? && k < |events| && DrainFails(events[k])
    ensures Run(c, events[..k + 1]).Some? && Run(c, events[..k + 1]).value.lifecycle == Failed
    ensures Run(c, events).value.lifecycle != New && Run(c, events).value.lifecycle != Running
    ensures forall j :: k < j < |events| ==> !events[j].SendBegins? && !events[j].CloseBegins?
  {
    hide Step, Enabled;
    var before, e := events[..|events| - 1], events[|events| - 1];
    if k == |events| - 1 {
      assert events[..k + 1] == events;
      FailedDrainFails(c, Run(c, before).value, e);
    } else {
      FailedDrainIsFinal(c, before, k);
      assert before[..k + 1] == events[..k + 1];
      NeverRunsAgain(c, Run(c, before).value, e);
    }
  }

  /** How each step moves the channel through its states; every other one leaves it where it is. */
  lemma LifecycleMoves(c: Config, s: State, e: Event)
    requires Enabled(c, s, e)
    ensures var after := Step(c, s, e).lifecycle;
            match e
            case Start(drained) => after == if Encodable(c.codec, HelloFrame(c), c.maxFrameSize) && drained then Running else Failed
            case SendRefused(_, _) => after == if s.sender == Finished then s.lifecycle else Failed
            case SenderIterates => after == if Step(c, s, e).sender == Crashed then Failed else s.lifecycle
            case SenderDrains(drained) => after == if drained then s.lifecycle else Failed
            case CloseBegins(_) => s.lifecycle == Running && after == Closing
            case CloseWritesEnd => after == if Encodable(c.codec, END_FRAME, c.maxFrameSize) then s.lifecycle else Failed
            case CloseDrains(drained) => after == if drained then Closed else Failed
            case CloseFails => after == Failed
            case CloseUnstarted => s.lifecycle == New && after == Closed
            case AbortEnds => after == Closed
            case WaiterSeesFailure => s.sender == Crashed && after == Failed
            case _ => after == s.lifecycle
  {
    hide Iterate, Encodable, HelloFrame;
  }

  // ----- counting -----

  /** How many batches are on the wire. */
  function Batches(wire: seq<Frame>): nat {
    if wire == [] then 0
    else Batches(wire[..|wire| - 1]) + (if wire[|wire| - 1].payload.Records? then 1 else 0)
  }

  lemma BatchesAppend(wire: seq<Frame>, f: Frame)
    ensures Batches(wire + [f]) == Batches(wire) + (if f.payload.Records? then 1 else 0)
  {
    assert (wire + [f])[..|wire|] == wire;
  }

  /** The counters are those of the wire, but for a batch whose drain is awaited or never came. */
  ghost predicate Counts(s: State) {
    match s.sender
    case Draining(records, _) => s.recordsSent + records == |Sent(s.wire)| && s.batchesSent + 1 == Batches(s.wire)
    case Crashed => s.recordsSent <= |Sent(s.wire)| && s.batchesSent <= Batches(s.wire)
    case Cancelled => s.recordsSent <= |Sent(s.wire)| && s.batchesSent <= Batches(s.wire)
    case _ => s.recordsSent == |Sent(s.wire)| && s.batchesSent == Batches(s.wire)
  }

  lemma IterationCounts(c: Config, queue: seq<Item>)
    requires c.Valid()
    ensures var i := Iterate(c, queue);
            if i.sender.Draining?
            then |i.written| == 1 && i.written[0].payload.Records? && |i.written[0].payload.records| == i.sender.records
            else i.written == []
  {
    hide Encodable;
    var n := BatchLength(queue, c.batchSize);
    if n > 0 {
      ContentsAt(queue[..n], 0);
    }
  }

  lemma IterationKeepsCounts(c: Config, s: State)
    requires c.Valid() && Counts(s) && Enabled(c, s, SenderIterates)
    ensures Counts(Step(c, s, SenderIterates))
  {
    hide Iterate, Sent, Batches;
    var i := Iterate(c, s.queue);
    IterationCounts(c, s.queue);
    if i.sender.Draining? {
      assert i.written == [i.written[0]];
      SentAppend(s.wire, i.written[0]);
      BatchesAppend(s.wire, i.written[0]);
    } else {
      assert s.wire + i.written == s.wire;
    }
  }

  lemma StartKeepsCounts(c: Config, s: State, drained: bool)
    requires Enabled(c, s, Start(drained)) && s.recordsSent == 0 && s.batchesSent == 0
    ensures Counts(Step(c, s, Start(drained)))
  {
    hide Encodable, Sent, Batches;
    SentAppend([], HelloFrame(c));
    BatchesAppend([], HelloFrame(c));
    assert [] + [HelloFrame(c)] == [HelloFrame(c)];
    NothingOnTheWire();
  }

  lemma EndKeepsCounts(c: Config, s: State)
    requires Counts(s) && Enabled(c, s, CloseWritesEnd)
    ensures Counts(Step(c, s, CloseWritesEnd))
  {
    hide Encodable, Sent, Batches;
    SentAppend(s.wire, END_FRAME);
    BatchesAppend(s.wire, END_FRAME);
  }

  lemma OthersKeepCounts(c: Config, s: State, e: Event)
    requires Counts(s) && Enabled(c, s, e) && !e.Start? && e != SenderIterates && e != CloseWritesEnd
    ensures Counts(Step(c, s, e))
  {
    hide Sent, Batches, Withdrawn, Min, Max;
  }

  lemma StepKeepsCounts(c: Config, s: State, e: Event)
    requires c.Valid() && Counts(s) && Enabled(c, s, e) && (e.Start? ==> s.recordsSent == 0 && s.batchesSent == 0)
    ensures Counts(Step(c, s, e))
  {
    hide Counts, Step, Enabled;
    match e {
      case SenderIterates => IterationKeepsCounts(c, s);
      case Start(drained) => StartKeepsCounts(c, s, drained);
      case CloseWritesEnd => EndKeepsCounts(c, s);
      case _ => OthersKeepCounts(c, s, e);
    }
  }

  lemma NothingOnTheWire()
    ensures Sent([]) == [] && Batches([]) == 0
  {
  }

  /** Over every run the channel's counters are what is on the wire. */
  lemma {:induction false} CountersAreTrue(c: Config, events: seq<Event>)
    requires c.Valid() && Run(c, events).Some?
    ensures Counts(Run(c, events).value)
    ensures Run(c, events).value.sender == NotStarted ==>
              Run(c, events).value.recordsSent == 0 && Run(c, events).value.batchesSent == 0
  {
    hide Step, Enabled, Counts;
    if events == [] {
      NothingCounted();
    } else {
      var before := events[..|events| - 1];
      CountersAreTrue(c, before);
      OnlyDrainsCount(c, Run(c, before).value, events[|events| - 1]);
      StepKeepsCounts(c, Run(c, before).value, events[|events| - 1]);
    }
  }

  lemma NothingCounted()
    ensures Counts(INITIAL)
  {
  }

  lemma OnlyDrainsCount(c: Config, s: State, e: Event)
    requires Enabled(c, s, e)
    ensures e.Start? ==> s.sender == NotStarted
    ensures Step(c, s, e).sender == NotStarted ==>
              s.sender == NotStarted && Step(c, s, e).recordsSent == s.recordsSent && Step(c, s, e).batchesSent == s.batchesSent
  {
    hide Encodable, HelloFrame;
  }

  /** A call's put has returned. */
  predicate PutReturned(e: Event) {
    e.SendReturns? || e.ClosePutReturns?
  }

  lemma DepthStep(c: Config, s: State, e: Event)
    requires Enabled(c, s, e)
    ensures var s' := Step(c, s, e);
            s'.maxQueueDepth == if PutReturned(e) && |s'.queue| > s.maxQueueDepth then |s'.queue| else s.maxQueueDepth
  {
    hide Iterate, Encodable, HelloFrame;
  }

  /** The greatest depth on record is the greatest that the queue had when a put returned. */
  lemma {:induction false} DepthIsHighest(c: Config, events: seq<Event>)
    requires Run(c, events).Some?
    ensures forall k :: 0 <= k < |events| && PutReturned(events[k]) ==>
              Run(c, events[..k + 1]).Some? && |Run(c, events[..k + 1]).value.queue| <= Run(c, events).value.maxQueueDepth
    ensures Run(c, events).value.maxQueueDepth == 0
            || exists k :: 0 <= k < |events| && PutReturned(events[k]) && Run(c, events[..k + 1]).Some?
                 && |Run(c, events[..k + 1]).value.queue| == Run(c, events).value.maxQueueDepth
  {
    hide Step, Enabled;
    if events != [] {
      var before, e := events[..|events| - 1], events[|events| - 1];
      DepthIsHighest(c, before);
      DepthStep(c, Run(c, before).value, e);
      assert events[..|before| + 1] == events;
      assert forall k :: 0 <= k < |before| ==> before[..k + 1] == events[..k + 1] && before[k] == events[k];
    }
  }
}
