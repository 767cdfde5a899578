/**
 A task's use of a channel (runtime/task.py, 323-372 and 461-484): it awaits each send before it begins the next one
 and before it closes the channel. Such a channel closes quietly, and what it wrote is all that was sent.
 */
module InTurn {
  import opened Wrappers
  import opened Records
  import opened Sequences
  import opened Protocol
  import opened Channel
  import opened Closing

  /** Every call of send has returned normally. */
  ghost predicate AllReturned(events: seq<Event>) {
    forall e :: e in events && e.SendBegins? ==> SendReturns(e.call) in events
  }

  /** Every call of send, and that of close, begins when all sends before it have returned normally. */
  ghost predicate UsedInTurn(events: seq<Event>) {
    events == []
    || var before, e := events[..|events| - 1], events[|events| - 1];
       UsedInTurn(before) && (e.SendBegins? || e.CloseBegins? ==> AllReturned(before))
  }

  /** The records that send was called with, in order. */
  ghost function Begun(events: seq<Event>): seq<Record> {
    if events == [] then []
    else
      var e := events[|events| - 1];
      Begun(events[..|events| - 1]) + (if e.SendBegins? then [e.record] else [])
  }

  /** Nothing but close waits to put, and all that was sent has been put. */
  ghost predicate AllPut(events: seq<Event>, s: State) {
    (forall a :: a in s.waiting ==> s.waiting[a].CloseMark?) && Contents(s.enqueued) == Begun(events)
  }

  /** One send is under way with the latest record, or was refused; so it has not returned, and nothing follows it. */
  ghost predicate OneIsOut(events: seq<Event>, s: State, a: nat, record: Record) {
    && SendBegins(a, record) in events && a !in s.position
    && (a in s.waiting ==> s.waiting[a] == Queued(record) && Contents(s.enqueued) + [record] == Begun(events))
    && (forall b :: b in s.waiting && b != a ==> s.waiting[b].CloseMark?)
  }

  ghost predicate TurnInvariant(events: seq<Event>, s: State) {
    && (forall e :: e in events && e.SendReturns? ==> e.call in s.position)
    && (s.closeCall.Some? ==> AllReturned(events))
    && (AllPut(events, s) || exists a, record :: OneIsOut(events, s, a, record))
  }

  lemma OutHasNotReturned(events: seq<Event>, s: State, a: nat, record: Record)
    requires OneIsOut(events, s, a, record) && forall e :: e in events && e.SendReturns? ==> e.call in s.position
    ensures !AllReturned(events)
  {
    assert forall e :: e in events && e.SendReturns? ==> e.call != a;
    assert SendReturns(a) !in events && SendBegins(a, record) in events;
  }

  lemma ReturnedMeansPut(events: seq<Event>, s: State)
    requires TurnInvariant(events, s) && AllReturned(events)
    ensures AllPut(events, s)
  {
    hide OneIsOut, AllReturned, AllPut;
    if !AllPut(events, s) {
      var a, record :| OneIsOut(events, s, a, record);
      OutHasNotReturned(events, s, a, record);
    }
  }

  lemma OneMoreEvent(events: seq<Event>, e: Event)
    ensures forall x :: x in events + [e] <==> x in events || x == e
    ensures Begun(events + [e]) == Begun(events) + (if e.SendBegins? then [e.record] else [])
  {
    assert (events + [e])[..|events|] == events;
  }

  lemma SendKeepsTurns(c: Config, events: seq<Event>, s: State, a: nat, record: Record)
    requires Invariant(c, s) && Enabled(c, s, SendBegins(a, record)) && TurnInvariant(events, s) && AllReturned(events)
    ensures TurnInvariant(events + [SendBegins(a, record)], Step(c, s, SendBegins(a, record)))
  {
    hide QueueInvariant, PutInvariant, ReturnInvariant, SenderInvariant, WireInvariant, Contents, Begun;
    ReturnedMeansPut(events, s);
    OneMoreEvent(events, SendBegins(a, record));
    var s' := Step(c, s, SendBegins(a, record));
    assert OneIsOut(events + [SendBegins(a, record)], s', a, record);
  }

  lemma PutKeepsTurns(c: Config, events: seq<Event>, s: State, call: nat)
    requires Invariant(c, s) && Enabled(c, s, PutRuns(call)) && TurnInvariant(events, s)
    ensures TurnInvariant(events + [PutRuns(call)], Step(c, s, PutRuns(call)))
  {
    hide Invariant, Contents, Begun;
    var e, s' := PutRuns(call), Step(c, s, PutRuns(call));
    OneMoreEvent(events, e);
    if |s.queue| < c.queueCapacity {
      ContentsAppend(s.enqueued, s.waiting[call]);
    }
    if !AllPut(events, s) {
      var a, record :| OneIsOut(events, s, a, record);
      if call != a || |s.queue| >= c.queueCapacity {
        assert OneIsOut(events + [e], s', a, record);
      }
    }
  }

  lemma RefusalKeepsTurns(c: Config, events: seq<Event>, s: State, call: nat, wakes: bool)
    requires Enabled(c, s, SendRefused(call, wakes)) && TurnInvariant(events, s)
    ensures TurnInvariant(events + [SendRefused(call, wakes)], Step(c, s, SendRefused(call, wakes)))
  {
    hide Contents, Begun, Withdrawn;
    var e, s' := SendRefused(call, wakes), Step(c, s, SendRefused(call, wakes));
    OneMoreEvent(events, e);
    if !AllPut(events, s) {
      var a, record :| OneIsOut(events, s, a, record);
      assert OneIsOut(events + [e], s', a, record);
    }
  }

  lemma CloseKeepsTurns(c: Config, events: seq<Event>, s: State, call: nat)
    requires Enabled(c, s, CloseBegins(call)) && TurnInvariant(events, s) && AllReturned(events)
    ensures TurnInvariant(events + [CloseBegins(call)], Step(c, s, CloseBegins(call)))
  {
    hide Contents, Begun;
    ReturnedMeansPut(events, s);
    OneMoreEvent(events, CloseBegins(call));
  }

  /** All other events leave the puts alone. */
  lemma OthersKeepTurns(c: Config, events: seq<Event>, s: State, e: Event)
    requires Enabled(c, s, e) && TurnInvariant(events, s)
    requires !e.SendBegins? && !e.PutRuns? && !e.SendRefused? && !e.CloseBegins?
    ensures TurnInvariant(events + [e], Step(c, s, e))
  {
    OneMoreEvent(events, e);
    PutsAreLeft(c, s, e);
    var s' := Step(c, s, e);
    hide Contents, Begun, Step;
    assert e.SendReturns? ==> e.call in s.position;
    if !AllPut(events, s) {
      var a, record :| OneIsOut(events, s, a, record);
      assert OneIsOut(events + [e], s', a, record);
    }
  }

  lemma PutsAreLeft(c: Config, s: State, e: Event)
    requires Enabled(c, s, e) && !e.SendBegins? && !e.PutRuns? && !e.SendRefused? && !e.CloseBegins?
    ensures var s' := Step(c, s, e);
            && s'.waiting == s.waiting && s'.enqueued == s.enqueued && s'.position == s.position
            && s'.closeCall == s.closeCall
  {
    hide Iterate, Encodable, HelloFrame;
  }

  lemma {:induction false} TurnsAreKept(c: Config, events: seq<Event>)
    requires c.Valid() && Run(c, events).Some? && UsedInTurn(events)
    ensures TurnInvariant(events, Run(c, events).value)
  {
    hide Step, Enabled, TurnInvariant, Invariant, AllReturned;
    if events == [] {
      NothingSentYet();
    } else {
      var before, e := events[..|events| - 1], events[|events| - 1];
      TurnsAreKept(c, before);
      RunsKeepInvariant(c, before);
      assert events == before + [e];
      var s := Run(c, before).value;
      match e {
        case SendBegins(a, record) => SendKeepsTurns(c, before, s, a, record);
        case PutRuns(call) => PutKeepsTurns(c, before, s, call);
        case SendRefused(call, wakes) => RefusalKeepsTurns(c, before, s, call, wakes);
        case CloseBegins(call) => CloseKeepsTurns(c, before, s, call);
        case _ => OthersKeepTurns(c, before, s, e);
      }
    }
  }

  lemma NothingSentYet()
    ensures TurnInvariant([], INITIAL)
  {
  }

  lemma CrowdedWaits(c: Config, s: State) returns (a: nat)
    requires Crowded(c, s) && PutInvariant(c, s) && |s.queue| <= c.queueCapacity
    ensures a in s.waiting
  {
    a := if s.blocked != [] then s.blocked[0] else s.ready[0];
  }

  /** When close is about to begin, no put is outstanding. */
  lemma NothingOutstanding(c: Config, events: seq<Event>, s: State)
    requires Invariant(c, s) && s.lifecycle == Running && AllPut(events, s)
    ensures !Crowded(c, s)
  {
    hide ReturnInvariant, SenderInvariant, WireInvariant, PutInvariant, Crowded;
    if Crowded(c, s) {
      var a := CrowdedWaits(c, s);
    }
  }

  /** A channel that is used in turn closes quietly. */
  lemma UsedInTurnClosesQuietly(c: Config, events: seq<Event>)
    requires c.Valid() && Run(c, events).Some? && UsedInTurn(events)
    ensures ClosesQuietly(c, events)
  {
    hide Run, Invariant, TurnInvariant, Crowded, AllReturned, Enabled, Step;
    forall k | 0 <= k < |events| && events[k].CloseBegins?
      ensures Run(c, events[..k]).Some? && !Crowded(c, Run(c, events[..k]).value)
    {
      PrefixesRun(c, events, k);
      PrefixesInTurn(events, k);
      TurnsAreKept(c, events[..k]);
      RunsKeepInvariant(c, events[..k]);
      var s := Run(c, events[..k]).value;
      ReturnedMeansPut(events[..k], s);
      assert s.lifecycle == Running by { OnlyRunningCloses(c, s, events[k]); }
      NothingOutstanding(c, events[..k], s);
    }
  }

  lemma OnlyRunningCloses(c: Config, s: State, e: Event)
    requires Enabled(c, s, e) && e.CloseBegins?
    ensures s.lifecycle == Running
  {
  }

  lemma {:induction false} PrefixesRun(c: Config, events: seq<Event>, k: nat)
    requires Run(c, events).Some? && k < |events|
    ensures Run(c, events[..k]).Some? && Enabled(c, Run(c, events[..k]).value, events[k])
  {
    hide Step, Enabled;
    var before := events[..|events| - 1];
    if k < |before| {
      PrefixesRun(c, before, k);
      assert before[..k] == events[..k];
    }
  }

  lemma {:induction false} PrefixesInTurn(events: seq<Event>, k: nat)
    requires UsedInTurn(events) && k < |events|
    ensures UsedInTurn(events[..k]) && (events[k].SendBegins? || events[k].CloseBegins? ==> AllReturned(events[..k]))
  {
    hide AllReturned;
    var before := events[..|events| - 1];
    if k < |before| {
      PrefixesInTurn(before, k);
      assert before[..k] == events[..k];
    }
  }

  /**
   The point of awaiting: once END_OF_STREAM is on the wire of a channel that was used in turn, the wire holds exactly
   the records that send was called with, in order.
   */
  lemma UsedInTurnIsWhole(c: Config, events: seq<Event>)
    requires c.Valid() && Run(c, events).Some? && UsedInTurn(events) && Ended(Run(c, events).value.wire)
    ensures Sent(Run(c, events).value.wire) == Begun(events)
  {
    hide Run, Ended, Sent, Contents, Begun, AllReturned, UsedInTurn, ClosesQuietly;
    UsedInTurnClosesQuietly(c, events);
    QuietEndIsWhole(c, events);
    EndOfStreamIsComplete(c, events);
    TurnsAreKept(c, events);
    ReturnedMeansPut(events, Run(c, events).value);
  }
}
