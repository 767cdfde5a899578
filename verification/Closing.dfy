/**
 Closing a channel (runtime/channel.py) while calls of send are still waiting to put: exactly when the close may
 end cleanly although a send that returns normally has lost its record.
 */
module Closing {
  import opened Wrappers
  import opened Records
  import opened Sequences
  import opened Protocol
  import opened Channel

  /** More puts are outstanding than the queue has room for. */
  predicate Crowded(c: Config, s: State) {
    s.blocked != [] || |s.queue| + |s.ready| > c.queueCapacity
  }

  // ----- a quiet close loses nothing -----

  /** Where close's put may be, when nothing can come behind it: due last, blocked alone, in the queue last, or gone. */
  ghost predicate NothingBehind(c: Config, s: State, call: nat) {
    && s.lifecycle != New && s.lifecycle != Running && s.closeCall == Some(call)
    && (|| MarkerDue(c, s, call) || MarkerBlocked(s, call) || MarkerLast(s, call)
        || (call !in s.waiting && call !in s.position))
  }

  ghost predicate MarkerDue(c: Config, s: State, call: nat) {
    && s.ready != [] && s.ready[|s.ready| - 1] == call && s.blocked == []
    && |s.queue| + |s.ready| - 1 <= c.queueCapacity && call !in s.position
  }

  ghost predicate MarkerBlocked(s: State, call: nat) {
    s.ready == [] && s.blocked == [call] && call !in s.position
  }

  ghost predicate MarkerLast(s: State, call: nat) {
    s.ready == [] && s.blocked == [] && call in s.position && s.position[call] == |s.enqueued| - 1
  }

  lemma PutKeepsNothingBehind(c: Config, s: State, a: nat, call: nat)
    requires c.Valid() && PutInvariant(c, s) && NothingBehind(c, s, call) && Enabled(c, s, PutRuns(a))
    ensures NothingBehind(c, Step(c, s, PutRuns(a)), call)
  {
    var n := |s.ready|;
    assert s.ready[0] == a && (n > 1 ==> a != s.ready[n - 1] && s.ready[1..][n - 2] == s.ready[n - 1]);
    assert MarkerDue(c, s, call) || (call !in s.waiting && call !in s.position);
  }

  lemma RefusalKeepsNothingBehind(c: Config, s: State, a: nat, wakes: bool, call: nat)
    requires PutInvariant(c, s) && NothingBehind(c, s, call) && Enabled(c, s, SendRefused(a, wakes))
    ensures NothingBehind(c, Step(c, s, SendRefused(a, wakes)), call)
  {
    if a != call && MarkerDue(c, s, call) {
      WithdrawingEarlier(s.ready, a);
      assert Withdrawn(s.ready, a) + [] == Withdrawn(s.ready, a);
    }
  }

  /** Withdrawing one of several calls leaves the last one last, and one call fewer. */
  lemma {:induction false} WithdrawingEarlier(calls: seq<nat>, a: nat)
    requires NoDuplicates(calls) && a in calls && calls[|calls| - 1] != a
    ensures var r := Withdrawn(calls, a);
            |r| == |calls| - 1 && r != [] && r[|r| - 1] == calls[|calls| - 1]
    ensures Withdrawn([], a) == []
  {
    var n := |calls| - 1;
    WithdrawnCount(calls[..n], a);
  }

  lemma {:induction false} WithdrawnCount(calls: seq<nat>, a: nat)
    requires NoDuplicates(calls)
    ensures |Withdrawn(calls, a)| == |calls| - (if a in calls then 1 else 0)
  {
    if calls != [] {
      var init, last := calls[..|calls| - 1], calls[|calls| - 1];
      assert calls == init + [last] && last !in init;
      WithdrawnCount(init, a);
    }
  }

  lemma WakingKeepsNothingBehind(c: Config, s: State, call: nat)
    requires QueueInvariant(c, s) && NothingBehind(c, s, call) && Enabled(c, s, SenderIterates)
    ensures NothingBehind(c, Step(c, s, SenderIterates), call)
  {
    hide Iterate;
    var woken := Min(|s.queue| - |Iterate(c, s.queue).rest|, |s.blocked|);
    if s.blocked == [] {
      assert s.ready + s.blocked[..woken] == s.ready && s.blocked[woken..] == [];
    } else if MarkerBlocked(s, call) {
      assert woken == 0 || (s.ready + s.blocked[..woken] == [call] && s.blocked[woken..] == []);
    }
  }

  lemma StepKeepsNothingBehind(c: Config, s: State, e: Event, call: nat)
    requires c.Valid() && QueueInvariant(c, s) && PutInvariant(c, s) && NothingBehind(c, s, call) && Enabled(c, s, e)
    ensures NothingBehind(c, Step(c, s, e), call)
  {
    match e {
      case PutRuns(a) => PutKeepsNothingBehind(c, s, a, call);
      case SendRefused(a, wakes) => RefusalKeepsNothingBehind(c, s, a, wakes, call);
      case SenderIterates => WakingKeepsNothingBehind(c, s, call);
      case SendReturns(_) =>
      case SendBegins(_, _) =>
      case CloseBegins(_) =>
      case _ =>
        PutsStay(c, s, e);
        CallsStay(c, s, e);
        StaysClosed(c, s, e);
        hide Step, Enabled;
    }
  }

  /** Once close has begun, the channel never runs again. */
  lemma StaysClosed(c: Config, s: State, e: Event)
    requires Enabled(c, s, e) && s.lifecycle != New && s.lifecycle != Running
    ensures Step(c, s, e).lifecycle != New && Step(c, s, e).lifecycle != Running
  {
    hide Iterate, Encodable, HelloFrame;
  }

  lemma {:induction false} QuietCloseStaysQuiet(c: Config, before: seq<Event>, call: nat, after: seq<Event>)
    requires c.Valid() && Run(c, before).Some? && !Crowded(c, Run(c, before).value)
    requires Run(c, before + [CloseBegins(call)] + after).Some?
    ensures NothingBehind(c, Run(c, before + [CloseBegins(call)] + after).value, call)
  {
    var events := before + [CloseBegins(call)] + after;
    if after == [] {
      assert events[..|events| - 1] == before;
    } else {
      hide Step, Enabled, NothingBehind;
      assert events[..|events| - 1] == before + [CloseBegins(call)] + after[..|after| - 1];
      QuietCloseStaysQuiet(c, before, call, after[..|after| - 1]);
      RunsKeepInvariant(c, events[..|events| - 1]);
      StepKeepsNothingBehind(c, Run(c, events[..|events| - 1]).value, events[|events| - 1], call);
    }
  }

  /**
   What a caller can check: if the queue has room for all outstanding puts as close begins, then however the run
   goes on, once END_OF_STREAM is on the wire everything that was ever put has been written.
   */
  lemma QuietCloseLosesNothing(c: Config, before: seq<Event>, call: nat, after: seq<Event>)
    requires c.Valid() && Run(c, before).Some? && !Crowded(c, Run(c, before).value)
    requires Run(c, before + [CloseBegins(call)] + after).Some?
    requires Ended(Run(c, before + [CloseBegins(call)] + after).value.wire)
    ensures var s := Run(c, before + [CloseBegins(call)] + after).value;
            Sent(s.wire) == Contents(s.enqueued)
  {
    var events := before + [CloseBegins(call)] + after;
    QuietCloseStaysQuiet(c, before, call, after);
    hide Run, Sent, Contents, Ended;
    EndOfStreamIsComplete(c, events);
    RunsKeepInvariant(c, events);
    var s := Run(c, events).value;
    hide QueueInvariant, PutInvariant, ReturnInvariant, SenderInvariant, WireInvariant;
    ContentsBehindMarker(s.enqueued, s.position[call]);
  }

  /** Whenever close begins, the queue has room for all outstanding puts. */
  ghost predicate ClosesQuietly(c: Config, events: seq<Event>) {
    forall k :: 0 <= k < |events| && events[k].CloseBegins? ==>
      Run(c, events[..k]).Some? && !Crowded(c, Run(c, events[..k]).value)
  }

  /** A close that is known of has begun at some point. */
  lemma {:induction false} CloseHasBegun(c: Config, events: seq<Event>) returns (k: nat)
    requires Run(c, events).Some? && Run(c, events).value.closeCall.Some?
    ensures k < |events| && events[k] == CloseBegins(Run(c, events).value.closeCall.value)
  {
    var before, e := events[..|events| - 1], events[|events| - 1];
    if e.CloseBegins? {
      k := |events| - 1;
    } else {
      CloseCallStays(c, Run(c, before).value, e);
      k := CloseHasBegun(c, before);
    }
  }

  lemma CloseCallStays(c: Config, s: State, e: Event)
    requires Enabled(c, s, e) && !e.CloseBegins?
    ensures Step(c, s, e).closeCall == s.closeCall
  {
    hide Iterate, Encodable, HelloFrame;
  }

  /** A channel that closes quietly and has ended its stream has written all that was ever put. */
  lemma QuietEndIsWhole(c: Config, events: seq<Event>)
    requires c.Valid() && Run(c, events).Some? && ClosesQuietly(c, events) && Ended(Run(c, events).value.wire)
    ensures Sent(Run(c, events).value.wire) == Contents(Run(c, events).value.enqueued)
  {
    hide Run, Ended, Sent, Contents;
    EndOfStreamIsComplete(c, events);
    var k := CloseHasBegun(c, events);
    assert events == events[..k] + [events[k]] + events[k + 1..];
    QuietCloseLosesNothing(c, events[..k], Run(c, events).value.closeCall.value, events[k + 1..]);
  }

  // ----- a crowded close can lose a record -----

  /** Every batch that the sender may make of these items fits a frame. */
  ghost predicate BatchesEncode(c: Config, items: seq<Item>) {
    forall i, j {:trigger items[i..j]} :: 0 <= i < j <= |items| && j - i <= c.batchSize ==>
      Encodable(c.codec, Frame(DataBatch, Records(Contents(items[i..j]))), c.maxFrameSize)
  }

  predicate AllRecords(items: seq<Item>) {
    forall i :: 0 <= i < |items| ==> items[i].Queued?
  }

  /** The items of some outstanding puts. */
  function ItemsOf(waiting: map<nat, Item>, calls: seq<nat>): (r: seq<Item>)
    ensures |r| == |calls|
    ensures forall i :: 0 <= i < |r| && calls[i] in waiting ==> r[i] == waiting[calls[i]]
  {
    seq(|calls|, i requires 0 <= i < |calls| => if calls[i] in waiting then waiting[calls[i]] else CloseMark)
  }

  /** What the steps of the construction leave alone. */
  ghost predicate Kept(s: State, t: State) {
    && t.lifecycle == s.lifecycle && t.closer == s.closer && t.closeCall == s.closeCall && t.returned == s.returned
    && s.position.Keys <= t.position.Keys && forall a :: a in s.position ==> t.position[a] == s.position[a]
  }

  /** The first n due puts have had their turns: k of them went in, as many as there was room for; the others block. */
  ghost predicate RanDue(c: Config, s: State, t: State, n: nat, k: nat) {
    && k <= n <= |s.ready| && |s.queue| + k <= c.queueCapacity && (k < n ==> |s.queue| + k == c.queueCapacity)
    && (forall i :: 0 <= i < |s.ready| ==> s.ready[i] in s.waiting)
    && t.ready == s.ready[n..] && t.blocked == s.blocked + s.ready[k..n]
    && t.queue == s.queue + ItemsOf(s.waiting, s.ready[..k])
    && t.enqueued == s.enqueued + ItemsOf(s.waiting, s.ready[..k])
    && t.sender == s.sender && Kept(s, t)
    && (forall i :: 0 <= i < k ==> s.ready[i] in t.position && t.position[s.ready[i]] == |s.enqueued| + i)
    && (forall a :: a in t.waiting ==> a in s.waiting && t.waiting[a] == s.waiting[a])
  }

  lemma OneMoreTurn(c: Config, s: State, t: State, n: nat, k: nat) returns (k': nat)
    requires RanDue(c, s, t, n, k) && n < |s.ready| && s.ready[n] in t.waiting && s.ready[n] !in t.position
    ensures Enabled(c, t, PutRuns(s.ready[n])) && RanDue(c, s, Step(c, t, PutRuns(s.ready[n])), n + 1, k')
  {
    var a := s.ready[n];
    var t' := Step(c, t, PutRuns(a));
    assert t.ready[0] == a && t.ready[1..] == s.ready[n + 1..];
    if |t.queue| >= c.queueCapacity {
      k' := k;
      assert s.ready[k..n + 1] == s.ready[k..n] + [a];
      assert t'.blocked == s.blocked + s.ready[k..n + 1];
    } else {
      k' := k + 1;
      assert k == n && s.ready[k..n] == [] && s.ready[k + 1..n + 1] == [];
      var before := ItemsOf(s.waiting, s.ready[..k]);
      assert ItemsOf(s.waiting, s.ready[..k + 1]) == before + [s.waiting[a]];
      ConcatAssociative(s.queue, before, [s.waiting[a]]);
      ConcatAssociative(s.enqueued, before, [s.waiting[a]]);
    }
  }

  /** The puts that are due are outstanding and have no place yet. */
  lemma DueAreOutstanding(c: Config, s: State)
    requires Invariant(c, s)
    ensures forall i :: 0 <= i < |s.ready| ==> s.ready[i] in s.waiting && s.ready[i] !in s.position
    ensures forall i :: 0 <= i < |s.blocked| ==> s.blocked[i] in s.waiting && s.blocked[i] !in s.position
    ensures |s.queue| <= c.queueCapacity
  {
    forall i | 0 <= i < |s.ready| ensures s.ready[i] in s.waiting && s.ready[i] !in s.position {
      assert s.ready[i] in s.ready;
    }
    forall i | 0 <= i < |s.blocked| ensures s.blocked[i] in s.waiting && s.blocked[i] !in s.position {
      assert s.blocked[i] in s.blocked;
    }
  }

  lemma NoTurnYet(c: Config, s: State)
    requires |s.queue| <= c.queueCapacity && forall i :: 0 <= i < |s.ready| ==> s.ready[i] in s.waiting
    ensures RanDue(c, s, s, 0, 0)
  {
    assert s.blocked + s.ready[0..0] == s.blocked;
    assert s.queue + ItemsOf(s.waiting, s.ready[..0]) == s.queue;
    assert s.enqueued + ItemsOf(s.waiting, s.ready[..0]) == s.enqueued;
  }

  /** Letting the first n due puts have their turns. */
  lemma {:induction false} RunDue(c: Config, events: seq<Event>, s: State, n: nat)
    returns (longer: seq<Event>, t: State, k: nat)
    requires c.Valid() && Run(c, events) == Some(s) && n <= |s.ready|
    ensures events <= longer && Run(c, longer) == Some(t) && RanDue(c, s, t, n, k)
  {
    hide Run, RanDue, Enabled, Step;
    RunsKeepInvariant(c, events);
    DueAreOutstanding(c, s);
    if n == 0 {
      longer, t, k := events, s, 0;
      NoTurnYet(c, s);
    } else {
      longer, t, k := RunDue(c, events, s, n - 1);
      RunsKeepInvariant(c, longer);
      DueAreOutstanding(c, t);
      NextIsDue(c, s, t, n - 1, k);
      k := OneMoreTurn(c, s, t, n - 1, k);
      var e := PutRuns(s.ready[n - 1]);
      var t' := Step(c, t, e);
      longer := Extend(c, longer, t, e, t');
      t := t';
    }
  }

  lemma NextIsDue(c: Config, s: State, t: State, n: nat, k: nat)
    requires RanDue(c, s, t, n, k) && n < |s.ready|
    ensures t.ready != [] && t.ready[0] == s.ready[n]
  {
  }

  /** The sender has taken everything and waits for more; the puts that this woke have become due. */
  ghost predicate Drained(s: State, t: State, woken: nat) {
    && woken <= |s.blocked| && t.ready == s.ready + s.blocked[..woken] && t.blocked == s.blocked[woken..]
    && t.queue == [] && t.sender == Getting && t.enqueued == s.enqueued && t.waiting == s.waiting
    && t.position == s.position && Kept(s, t)
    && (s.queue != [] && s.blocked != [] ==> woken > 0)
  }

  lemma IteratesOverRecords(c: Config, queue: seq<Item>)
    requires c.Valid() && queue != [] && AllRecords(queue) && BatchesEncode(c, queue)
    ensures var n := Min(c.batchSize, |queue|);
            var i := Iterate(c, queue);
            n > 0 && i.rest == queue[n..] && i.sender == Draining(n, false)
  {
    var n := BatchLength(queue, c.batchSize);
    assert n == Min(c.batchSize, |queue|);
    assert queue[0..n] == queue[..n];
    ContentsAt(queue[..n], 0);
  }

  /** One batch taken, written and drained. */
  lemma OneBatch(c: Config, events: seq<Event>, s: State) returns (longer: seq<Event>, t: State, woken: nat)
    requires c.Valid() && Run(c, events) == Some(s) && s.sender == Getting
    requires s.queue != [] && AllRecords(s.queue) && BatchesEncode(c, s.queue)
    ensures events <= longer && Run(c, longer) == Some(t) && t.sender == Getting
    ensures |t.queue| < |s.queue| && AllRecords(t.queue) && BatchesEncode(c, t.queue)
    ensures woken <= |s.blocked| && (s.blocked != [] ==> woken > 0)
    ensures t.ready == s.ready + s.blocked[..woken] && t.blocked == s.blocked[woken..]
    ensures t.enqueued == s.enqueued && t.waiting == s.waiting && t.position == s.position && Kept(s, t)
  {
    IteratesOverRecords(c, s.queue);
    var n := Min(c.batchSize, |s.queue|);
    SuffixEncodes(c, s.queue, n);
    hide Run, Iterate, BatchesEncode;
    var s1 := Step(c, s, SenderIterates);
    woken := Min(n, |s.blocked|);
    longer := Extend(c, events, s, SenderIterates, s1);
    t := Step(c, s1, SenderDrains(true));
    longer := Extend(c, longer, s1, SenderDrains(true), t);
  }

  lemma SuffixEncodes(c: Config, items: seq<Item>, n: nat)
    requires n <= |items| && BatchesEncode(c, items) && AllRecords(items)
    ensures BatchesEncode(c, items[n..]) && AllRecords(items[n..])
  {
    forall i, j | 0 <= i < j <= |items[n..]| && j - i <= c.batchSize
      ensures Encodable(c.codec, Frame(DataBatch, Records(Contents(items[n..][i..j]))), c.maxFrameSize)
    {
      assert items[n..][i..j] == items[n + i..n + j];
    }
  }

  lemma {:induction false} DrainAll(c: Config, events: seq<Event>, s: State)
    returns (longer: seq<Event>, t: State, woken: nat)
    requires c.Valid() && Run(c, events) == Some(s) && s.sender == Getting
    requires AllRecords(s.queue) && BatchesEncode(c, s.queue)
    ensures events <= longer && Run(c, longer) == Some(t) && Drained(s, t, woken)
    decreases |s.queue|
  {
    hide Run, BatchesEncode, AllRecords;
    if s.queue == [] {
      longer, t, woken := events, s, 0;
      assert s.ready + s.blocked[..0] == s.ready && s.blocked[0..] == s.blocked;
    } else {
      var first, rest;
      longer, t, first := OneBatch(c, events, s);
      var between := t;
      longer, t, rest := DrainAll(c, longer, t);
      woken := first + rest;
      assert s.blocked[first..][..rest] == s.blocked[first..woken] && s.blocked[first..][rest..] == s.blocked[woken..];
      assert s.blocked[..first] + s.blocked[first..woken] == s.blocked[..woken];
      ConcatAssociative(s.ready, s.blocked[..first], s.blocked[first..woken]);
    }
  }

  /** Close's put is the only one due, others are blocked, and the sender waits at a full queue of records. */
  ghost predicate Poised(c: Config, s: State, call: nat, full: State) {
    && full.ready == [call] && full.blocked != [] && |full.queue| == c.queueCapacity && AllRecords(full.queue)
    && full.sender == Getting && full.closer == Putting && full.closeCall == Some(call) && full.lifecycle == Closing
    && full.returned == s.returned
    && (forall i :: 0 <= i < |full.blocked| ==> full.blocked[i] in s.waiting)
  }

  /** From a crowded channel: close begins, the puts due before its own have their turns, and the sender comes back. */
  lemma FillUp(c: Config, before: seq<Event>, s: State, call: nat) returns (events: seq<Event>, full: State)
    requires c.Valid() && Run(c, before) == Some(s) && s.lifecycle == Running && SenderAlive(s) && Crowded(c, s)
    requires call !in s.waiting && call !in s.position
    requires BatchesEncode(c, s.queue + ItemsOf(s.waiting, s.ready))
    ensures before + [CloseBegins(call)] <= events && Run(c, events) == Some(full)
    ensures Poised(c, s, call, full) && BatchesEncode(c, full.queue)
  {
    hide Run, BatchesEncode, Crowded, RanDue, AllRecords, Encodable, WireInvariant, QueueInvariant, ReturnInvariant, SenderInvariant;
    RunsKeepInvariant(c, before);
    DueAreOutstanding(c, s);
    var s1 := Step(c, s, CloseBegins(call));
    events := Extend(c, before, s, CloseBegins(call), s1);
    var k;
    events, full, k := RunDue(c, events, s1, |s.ready|);
    TurnsTaken(c, s1, full, |s.ready|, k);
    assert s1.ready[..k] == s.ready[..k] && s1.ready[|s.ready|..] == [call];
    PrefixEncodes(c, s, s1, k);
    RunsKeepInvariant(c, events);
    DueAreOutstanding(c, full);
    NoMarkerYet(c, full, call);
    FilledIsFull(c, s, s1, full, k, call);
    assert full.sender.Draining? ==> !full.sender.last;
    events, full := SenderComesBack(c, events, s, call, full);
  }

  lemma TurnsTaken(c: Config, s: State, t: State, n: nat, k: nat)
    requires RanDue(c, s, t, n, k)
    ensures k <= n <= |s.ready| && t.ready == s.ready[n..] && t.closeCall == s.closeCall
  {
  }

  /** If the sender was waiting for its peer, it comes back for the next batch. */
  lemma SenderComesBack(c: Config, events: seq<Event>, s: State, call: nat, full: State)
    returns (longer: seq<Event>, full': State)
    requires Run(c, events) == Some(full) && (full.sender == Getting || (full.sender.Draining? && !full.sender.last))
    requires Poised(c, s, call, full.(sender := Getting))
    ensures events <= longer && Run(c, longer) == Some(full') && Poised(c, s, call, full') && full'.queue == full.queue
  {
    hide Run, AllRecords;
    longer, full' := events, full;
    if full.sender.Draining? {
      full' := Step(c, full, SenderDrains(true));
      longer := Extend(c, events, full, SenderDrains(true), full');
    } else {
      assert full.(sender := Getting) == full;
    }
  }

  lemma FilledIsFull(c: Config, s: State, s1: State, t: State, k: nat, call: nat)
    requires c.Valid() && PutInvariant(c, s) && SenderAlive(s) && Crowded(c, s) && s.lifecycle == Running
    requires call !in s.waiting && call !in s.position && s1 == Step(c, s, CloseBegins(call))
    requires RanDue(c, s1, t, |s.ready|, k)
    ensures t.ready == [call] && t.blocked != [] && |t.queue| == c.queueCapacity
    ensures t.queue == s.queue + ItemsOf(s1.waiting, s1.ready[..k]) && t.sender == s.sender
    ensures t.closer == Putting && t.closeCall == Some(call) && t.lifecycle == Closing && t.returned == s.returned
    ensures forall i :: 0 <= i < |t.blocked| ==> t.blocked[i] in s.waiting
  {
    assert s1.ready[|s.ready|..] == [call] && s1.ready[k..|s.ready|] == s.ready[k..];
    forall i | 0 <= i < |t.blocked| ensures t.blocked[i] in s.waiting {
      if i < |s.blocked| {
        assert s.blocked[i] in s.blocked;
      } else {
        assert s.ready[k..][i - |s.blocked|] in s.ready;
      }
    }
  }

  lemma PrefixEncodes(c: Config, s: State, s1: State, k: nat)
    requires k <= |s.ready| && k <= |s1.ready| && s1.ready[..k] == s.ready[..k]
    requires forall i :: 0 <= i < |s.ready| ==>
               && s.ready[i] in s.waiting && s.ready[i] in s1.waiting
               && s1.waiting[s.ready[i]] == s.waiting[s.ready[i]]
    requires BatchesEncode(c, s.queue + ItemsOf(s.waiting, s.ready))
    ensures BatchesEncode(c, s.queue + ItemsOf(s1.waiting, s1.ready[..k]))
  {
    var whole, part := s.queue + ItemsOf(s.waiting, s.ready), s.queue + ItemsOf(s1.waiting, s1.ready[..k]);
    assert part == whole[..|part|] by {
      assert forall i :: 0 <= i < k ==> s1.ready[..k][i] == s.ready[i];
    }
    forall i, j | 0 <= i < j <= |part| && j - i <= c.batchSize
      ensures Encodable(c.codec, Frame(DataBatch, Records(Contents(part[i..j]))), c.maxFrameSize)
    {
      assert part[i..j] == whole[i..j];
    }
  }

  /** Until close's item is in, there is no marker anywhere. */
  lemma NoMarkerYet(c: Config, s: State, call: nat)
    requires Invariant(c, s) && s.closeCall == Some(call) && call !in s.position
    ensures AllRecords(s.queue) && (s.sender.Draining? ==> !s.sender.last)
  {
    assert forall i :: 0 <= i < |s.queue| ==> s.queue[i] == s.enqueued[Taken(s) + i];
  }

  /** The marker is in and the sender has stopped at it; a send of `s` has put its record behind, or is about to. */
  ghost predicate Overtaken(c: Config, s: State, call: nat, t: State, lost: nat) {
    && t.sender == Finished && t.closer == Putting && t.closeCall == Some(call) && t.lifecycle == Closing
    && t.returned == s.returned && call in t.position && lost in s.waiting
    && lost in t.position && t.position[call] < t.position[lost]
  }

  /** The sender takes all it has; close's put is the first to find room; a woken put comes behind it. */
  lemma Overtake(c: Config, events: seq<Event>, s: State, call: nat, full: State)
    returns (longer: seq<Event>, t: State, lost: nat)
    requires c.Valid() && Run(c, events) == Some(full) && Poised(c, s, call, full) && BatchesEncode(c, full.queue)
    ensures events <= longer && Run(c, longer) == Some(t) && Overtaken(c, s, call, t, lost)
  {
    hide Run, BatchesEncode, AllRecords;
    var woken;
    longer, t, woken := DrainAll(c, events, full);
    var drained := t;
    assert drained.ready == [call] + full.blocked[..woken] && woken > 0;
    RunsKeepInvariant(c, longer);
    MarkerWaits(c, drained, call);
    var k;
    longer, t, k := RunDue(c, longer, drained, |drained.ready|);
    var behind := t;
    TurnsBehindMarker(c, s, call, full, drained, behind, woken, k);
    hide Drained, RanDue, Poised, Overtaken;
    if k >= 2 {
      lost := full.blocked[0];
      longer, t := TakeMarker(c, longer, s, call, behind, lost);
    } else {
      lost := behind.blocked[0];
      longer, t := TakeMarkerAndWake(c, longer, s, call, behind);
    }
  }

  /** What the construction has come to before the sender takes the marker. */
  ghost predicate AtMarker(s: State, call: nat, t: State) {
    && t.queue != [] && t.queue[0].CloseMark? && t.sender == Getting && t.ready == []
    && t.closer == Putting && t.closeCall == Some(call) && t.lifecycle == Closing && t.returned == s.returned
    && call in t.position
  }

  lemma TakeMarker(c: Config, events: seq<Event>, s: State, call: nat, behind: State, lost: nat)
    returns (longer: seq<Event>, t: State)
    requires c.Valid() && Run(c, events) == Some(behind) && AtMarker(s, call, behind)
    requires Iterate(c, behind.queue) == Iteration(behind.queue[1..], [], Finished)
    requires lost in s.waiting && lost in behind.position && behind.position[call] < behind.position[lost]
    ensures events <= longer && Run(c, longer) == Some(t) && Overtaken(c, s, call, t, lost)
  {
    hide Run, Iterate;
    t := Step(c, behind, SenderIterates);
    longer := Extend(c, events, behind, SenderIterates, t);
  }

  /** With a single place the woken put blocked again; taking the marker wakes it once more. */
  lemma TakeMarkerAndWake(c: Config, events: seq<Event>, s: State, call: nat, behind: State)
    returns (longer: seq<Event>, t: State)
    requires c.Valid() && Run(c, events) == Some(behind) && AtMarker(s, call, behind)
    requires Iterate(c, behind.queue) == Iteration(behind.queue[1..], [], Finished) && |behind.queue| == 1
    requires behind.blocked != [] && behind.blocked[0] in s.waiting
    ensures events <= longer && Run(c, longer) == Some(t) && Overtaken(c, s, call, t, behind.blocked[0])
  {
    hide Run, Iterate;
    var lost := behind.blocked[0];
    var s1 := Step(c, behind, SenderIterates);
    longer := Extend(c, events, behind, SenderIterates, s1);
    assert s1.ready == [] + behind.blocked[..1] == [lost];
    RunsKeepInvariant(c, longer);
    DueAreOutstanding(c, s1);
    PlacesAreInLog(s1);
    t := Step(c, s1, PutRuns(lost));
    longer := Extend(c, longer, s1, PutRuns(lost), t);
  }

  lemma MarkerWaits(c: Config, s: State, call: nat)
    requires Invariant(c, s) && s.closeCall == Some(call) && s.ready != [] && s.ready[0] == call
    ensures call in s.waiting && s.waiting[call].CloseMark?
  {
    assert s.ready[0] in s.ready;
  }

  lemma PlacesAreInLog(s: State)
    requires CallInvariant(s)
    ensures forall a :: a in s.position ==> s.position[a] < |s.enqueued|
  {
  }

  /** After everybody had a turn at the empty queue: the marker is first, and behind it a put, or a blocked one. */
  lemma TurnsBehindMarker(c: Config, s: State, call: nat, full: State, drained: State, t: State, woken: nat, k: nat)
    requires c.Valid() && Poised(c, s, call, full) && Drained(full, drained, woken) && woken > 0
    requires RanDue(c, drained, t, |drained.ready|, k)
    requires call in drained.waiting && drained.waiting[call].CloseMark?
    ensures k > 0 && t.queue != [] && t.queue[0].CloseMark? && t.ready == [] && t.sender == Getting
    ensures Iterate(c, t.queue) == Iteration(t.queue[1..], [], Finished)
    ensures call in t.position && t.closer == Putting && t.closeCall == Some(call) && t.lifecycle == Closing
    ensures t.returned == s.returned
    ensures k >= 2 ==> full.blocked[0] in s.waiting && full.blocked[0] in t.position
                       && t.position[full.blocked[0]] == t.position[call] + 1
    ensures k < 2 ==> t.blocked != [] && t.blocked[0] in s.waiting && |t.queue| == 1 == c.queueCapacity
  {
    var ready := drained.ready;
    assert ready == [call] + full.blocked[..woken];
    assert ready[0] == call && ready[1] == full.blocked[0];
    assert t.queue[0] == ItemsOf(drained.waiting, ready[..k])[0] == drained.waiting[call];
    if k < 2 {
      assert t.blocked == full.blocked[woken..] + ready[1..];
      assert t.blocked[0] in s.waiting by {
        if woken < |full.blocked| {
          assert t.blocked[0] == full.blocked[woken];
        } else {
          assert t.blocked[0] == ready[1];
        }
      }
    }
  }

  /** Everybody still concerned comes to an end: the send returns, close writes its END_OF_STREAM and returns. */
  lemma Finish(c: Config, events: seq<Event>, s: State, call: nat, t: State, lost: nat)
    returns (longer: seq<Event>, end: State)
    requires c.Valid() && Run(c, events) == Some(t) && Overtaken(c, s, call, t, lost)
    requires lost !in s.returned && lost != call && Encodable(c.codec, END_FRAME, c.maxFrameSize)
    ensures events <= longer && Run(c, longer) == Some(end)
    ensures end.lifecycle == Closed && Ended(end.wire) && end.closeCall == Some(call)
    ensures lost in end.returned && call in end.position && lost in end.position
    ensures end.position[call] < end.position[lost] && end.position == t.position && end.enqueued == t.enqueued
  {
    hide Run, Iterate;
    var t1 := Step(c, t, SendReturns(lost));
    longer := Extend(c, events, t, SendReturns(lost), t1);
    var t2 := Step(c, t1, ClosePutReturns);
    longer := Extend(c, longer, t1, ClosePutReturns, t2);
    var t3 := Step(c, t2, CloseWritesEnd);
    longer := Extend(c, longer, t2, CloseWritesEnd, t3);
    end := Step(c, t3, CloseDrains(true));
    longer := Extend(c, longer, t3, CloseDrains(true), end);
  }

  /** The close ended cleanly, and a send returned normally whose record is not on the wire. */
  ghost predicate Loses(s: State, lost: nat) {
    && s.lifecycle == Closed && Ended(s.wire) && lost in s.returned
    && lost in s.position && |Sent(s.wire)| <= s.position[lost] < |s.enqueued|
    && s.enqueued[s.position[lost]].Queued? && Sent(s.wire) != Contents(s.enqueued)
  }

  /**
   The converse: from every reachable running channel that is crowded, whose sender has not been cancelled and
   whose frames encode, the run may go on so that close ends cleanly and one of the sends outstanding as it began
   returns normally with its record never written.
   */
  lemma CrowdedCloseCanLose(c: Config, before: seq<Event>, call: nat) returns (after: seq<Event>, lost: nat)
    requires c.Valid() && Run(c, before).Some?
    requires var s := Run(c, before).value;
             && s.lifecycle == Running && SenderAlive(s) && Crowded(c, s)
             && call !in s.waiting && call !in s.position
             && BatchesEncode(c, s.queue + ItemsOf(s.waiting, s.ready))
    requires Encodable(c.codec, END_FRAME, c.maxFrameSize)
    ensures Run(c, before + [CloseBegins(call)] + after).Some?
    ensures lost in Run(c, before).value.waiting && Loses(Run(c, before + [CloseBegins(call)] + after).value, lost)
  {
    hide Run, BatchesEncode, Encodable;
    var s := Run(c, before).value;
    var events, full := FillUp(c, before, s, call);
    var t, end;
    events, t, lost := Overtake(c, events, s, call, full);
    RunsKeepInvariant(c, before);
    OutstandingHasNotReturned(s, lost);
    events, end := Finish(c, events, s, call, t, lost);
    after := events[|before| + 1..];
    assert events == before + [CloseBegins(call)] + after;
    EndOfStreamIsComplete(c, events);
    RunsKeepInvariant(c, events);
    LostIsARecord(end, call, lost);
  }

  lemma OutstandingHasNotReturned(s: State, a: nat)
    requires CallInvariant(s) && ReturnInvariant(s) && a in s.waiting
    ensures a !in s.returned
  {
  }

  lemma LostIsARecord(s: State, call: nat, lost: nat)
    requires CallInvariant(s) && s.lifecycle == Closed && Ended(s.wire) && s.closeCall == Some(call)
    requires lost in s.returned && call in s.position && lost in s.position && s.position[call] < s.position[lost]
    requires |Sent(s.wire)| == s.position[call] && Sent(s.wire) == Contents(s.enqueued[..s.position[call]])
    ensures Loses(s, lost)
  {
    ContentsBehindMarker(s.enqueued, s.position[call]);
  }

  /** So close can lose a record exactly if the channel is crowded as it begins. */
  lemma CloseCanLoseIffCrowded(c: Config, before: seq<Event>, call: nat)
    requires c.Valid() && Run(c, before).Some?
    requires var s := Run(c, before).value;
             && s.lifecycle == Running && SenderAlive(s) && call !in s.waiting && call !in s.position
             && BatchesEncode(c, s.queue + ItemsOf(s.waiting, s.ready))
    requires Encodable(c.codec, END_FRAME, c.maxFrameSize)
    ensures Crowded(c, Run(c, before).value)
       <==> exists after, lost ::
              Run(c, before + [CloseBegins(call)] + after).Some?
              && Loses(Run(c, before + [CloseBegins(call)] + after).value, lost)
  {
    hide Run, BatchesEncode, Encodable, Crowded;
    if Crowded(c, Run(c, before).value) {
      var after, lost := CrowdedCloseCanLose(c, before, call);
    } else {
      forall after, lost
        | Run(c, before + [CloseBegins(call)] + after).Some?
          && Loses(Run(c, before + [CloseBegins(call)] + after).value, lost)
        ensures false
      {
        QuietCloseLosesNothing(c, before, call, after);
      }
    }
  }

  // ----- crowding a channel -----

  function Copies(record: Record, n: nat): (r: seq<Item>)
    ensures |r| == n && forall i :: 0 <= i < n ==> r[i] == Queued(record)
  {
    seq(n, _ => Queued(record))
  }

  /** While the sender waits for its peer to drain, n sends have returned with their records in the queue. */
  ghost predicate Filled(c: Config, record: Record, n: nat, s: State) {
    && s.lifecycle == Running && s.sender == Draining(1, false) && s.queue == Copies(record, n)
    && s.ready == [] && s.blocked == []
    && forall a: nat :: a > n ==> a !in s.waiting && a !in s.position
  }

  lemma {:induction false} FillQueue(c: Config, record: Record, n: nat) returns (events: seq<Event>, s: State)
    requires c.Valid() && n <= c.queueCapacity
    requires Encodable(c.codec, HelloFrame(c), c.maxFrameSize)
    requires Encodable(c.codec, Frame(DataBatch, Records([record])), c.maxFrameSize)
    ensures Run(c, events) == Some(s) && Filled(c, record, n, s)
  {
    if n == 0 {
      events, s := StallSender(c, record);
    } else {
      hide Encodable;
      events, s := FillQueue(c, record, n - 1);
      var s1 := Step(c, s, SendBegins(n, record));
      events := Extend(c, events, s, SendBegins(n, record), s1);
      var t := Step(c, s1, PutRuns(n));
      events := Extend(c, events, s1, PutRuns(n), t);
      s := t;
    }
  }

  /** The first record is taken at once, and its batch is still draining. */
  lemma StallSender(c: Config, record: Record) returns (events: seq<Event>, s: State)
    requires c.Valid() && Encodable(c.codec, HelloFrame(c), c.maxFrameSize)
    requires Encodable(c.codec, Frame(DataBatch, Records([record])), c.maxFrameSize)
    ensures Run(c, events) == Some(s) && Filled(c, record, 0, s)
  {
    TakesOneRecord(c, record);
    hide Encodable, Iterate;
    var s1 := Step(c, INITIAL, Start(true));
    events := Extend(c, [], INITIAL, Start(true), s1);
    var s2 := Step(c, s1, SendBegins(0, record));
    events := Extend(c, events, s1, SendBegins(0, record), s2);
    var s3 := Step(c, s2, PutRuns(0));
    events := Extend(c, events, s2, PutRuns(0), s3);
    assert s3.queue == [Queued(record)];
    s := Step(c, s3, SenderIterates);
    events := Extend(c, events, s3, SenderIterates, s);
  }

  lemma TakesOneRecord(c: Config, record: Record)
    requires c.Valid() && Encodable(c.codec, Frame(DataBatch, Records([record])), c.maxFrameSize)
    ensures Iterate(c, [Queued(record)]).rest == [] && Iterate(c, [Queued(record)]).sender == Draining(1, false)
  {
    var one := [Queued(record)];
    assert one == [] + [Queued(record)] && one[..1] == one && one[1..] == [];
    ContentsAppend([], Queued(record));
    assert Contents(one) == [record] && BatchLength(one, c.batchSize) == 1;
  }

  /**
   In every valid configuration whose frames encode: while the peer is slow, fill the queue, begin one more send,
   which blocks, and then close. The close may end cleanly and a send return normally whose record is lost.
   */
  lemma OverlappingSendCanBeLost(c: Config, record: Record) returns (events: seq<Event>, lost: nat)
    requires c.Valid()
    requires Encodable(c.codec, HelloFrame(c), c.maxFrameSize) && Encodable(c.codec, END_FRAME, c.maxFrameSize)
    requires Encodable(c.codec, Frame(DataBatch, Records([record])), c.maxFrameSize)
    requires BatchesEncode(c, Copies(record, c.queueCapacity))
    ensures Run(c, events).Some? && Loses(Run(c, events).value, lost)
  {
    hide Encodable, BatchesEncode;
    var n := c.queueCapacity + 1;
    var before, s := FillQueue(c, record, c.queueCapacity);
    var s1 := Step(c, s, SendBegins(n, record));
    before := Extend(c, before, s, SendBegins(n, record), s1);
    var s2 := Step(c, s1, PutRuns(n));
    before := Extend(c, before, s1, PutRuns(n), s2);
    assert s2.queue + ItemsOf(s2.waiting, s2.ready) == Copies(record, c.queueCapacity);
    hide Run, Step;
    var after;
    after, lost := CrowdedCloseCanLose(c, before, n + 1);
    events := before + [CloseBegins(n + 1)] + after;
  }
}
