/**
 An output channel with a bounded queue (runtime/channel.py). The coroutines that share it (callers of
 send, the sender loop, close and abort) are cut at their awaits: between two awaits nothing else runs.
 `Step` says what each of those segments does; a run is any sequence of enabled segments.
 */
module Channel {
  import opened Wrappers
  import opened Records
  import opened Sequences
  import opened Protocol

  datatype Config = Config(
    identity: ChannelIdentity,
    queueCapacity: nat,
    batchSize: nat,
    maxBatchRecords: nat,
    codec: Codec,
    maxFrameSize: nat)
  {
    /** What the constructor of the channel insists on. */
    predicate Valid() {
      && 0 < queueCapacity && 0 < batchSize <= maxBatchRecords
      && identity.jobId != "" && identity.upstreamTaskId != "" && identity.downstreamTaskId != ""
    }
  }

  datatype Lifecycle = New | Running | Closing | Closed | Failed

  /** A queued record, or the marker that close puts behind the last one. */
  datatype Item = Queued(record: Record) | CloseMark

  /** Where the sender loop is suspended, or how it ended. */
  datatype Sender =
    | NotStarted
    | Getting
    | Draining(records: nat, last: bool)
    | Finished
    | Crashed
    | Cancelled

  /** Where the one call of close that found the channel running is suspended. */
  datatype Closer = NoCloser | Putting | Joining | DrainingEnd | ClosedDown | GaveUp

  /** The channel's fields, the frames written so far, and the history that the theorems speak about. */
  datatype State = State(
    lifecycle: Lifecycle,
    queue: seq<Item>,
    sender: Sender,
    closer: Closer,
    waiting: map<nat, Item>,       // puts not done yet, by call
    ready: seq<nat>,               // those the event loop will run, in that order
    blocked: seq<nat>,             // those that found the queue full, in that order
    recordsSent: nat,
    batchesSent: nat,
    maxQueueDepth: nat,
    wire: seq<Frame>,
    enqueued: seq<Item>,           // everything ever put, in order
    position: map<nat, nat>,       // where in `enqueued` a call's item went
    returned: set<nat>,            // calls of send that returned normally
    closeCall: Option<nat>,
    beforeClose: set<nat>)         // `returned` at the moment close began

  datatype Event =
    | Start(drained: bool)
    | SendBegins(call: nat, record: Record)
    | PutRuns(call: nat)
    | SendReturns(call: nat)
    | SendRefused(call: nat, wakes: bool)
    | SenderIterates
    | SenderDrains(drained: bool)
    | CloseBegins(call: nat)
    | ClosePutReturns
    | CloseWritesEnd
    | CloseDrains(drained: bool)
    | CloseFails
    | CloseUnstarted
    | AbortCancelsSender
    | AbortEnds
    | WaiterSeesFailure

  const END_FRAME := Frame(EndOfStream, Empty)

  function HelloFrame(c: Config): Frame {
    Frame(Hello, Identity(c.identity))
  }

  const INITIAL := State(New, [], NotStarted, NoCloser, map[], [], [], 0, 0, 0, [], [], map[], {}, None, {})

  /** The records among some items. */
  function Contents(items: seq<Item>): seq<Record> {
    if items == [] then []
    else
      var last := items[|items| - 1];
      Contents(items[..|items| - 1]) + (if last.Queued? then [last.record] else [])
  }

  /** How many records at the head of the queue go into the next batch. */
  function BatchLength(queue: seq<Item>, size: nat): (n: nat)
    ensures n <= size && n <= |queue|
    ensures forall i :: 0 <= i < n ==> queue[i].Queued?
    ensures n < size && n < |queue| ==> queue[n].CloseMark?
  {
    if size == 0 || queue == [] || queue[0].CloseMark? then 0
    else 1 + BatchLength(queue[1..], size - 1)
  }

  predicate SenderDone(s: State) {
    s.sender.Finished? || s.sender.Crashed? || s.sender.Cancelled?
  }

  predicate Enabled(c: Config, s: State, e: Event) {
    match e
    case Start(_) => s.lifecycle == New && s.sender == NotStarted && s.wire == []
    case SendBegins(call, _) => s.lifecycle == Running && call !in s.waiting && call !in s.position
    case PutRuns(call) => s.ready != [] && s.ready[0] == call && call in s.waiting
    case SendReturns(call) => call in s.position && call !in s.returned && s.closeCall != Some(call)
    case SendRefused(call, wakes) =>
      && call in s.waiting && SenderDone(s)
      && (wakes ==> call in s.ready && |s.queue| < c.queueCapacity && s.blocked != [])
    case SenderIterates => s.sender == Getting && s.queue != []
    case SenderDrains(_) => s.sender.Draining?
    case CloseBegins(call) => s.lifecycle == Running && call !in s.waiting && call !in s.position
    case ClosePutReturns => s.closer == Putting && s.closeCall.Some? && s.closeCall.value in s.position
    case CloseWritesEnd => s.closer == Joining && s.sender == Finished
    case CloseDrains(_) => s.closer == DrainingEnd
    case CloseFails => s.closer in {Putting, Joining, DrainingEnd}
    case CloseUnstarted => s.lifecycle == New
    case AbortCancelsSender => s.sender == Getting || s.sender.Draining?
    case AbortEnds => s.sender == NotStarted || SenderDone(s)
    case WaiterSeesFailure => s.sender == Crashed
  }

  /** What one iteration of the sender loop leaves in the queue, what it writes, and where it suspends. */
  datatype Iteration = Iteration(rest: seq<Item>, written: seq<Frame>, sender: Sender)

  /** One iteration of the sender loop, up to the await of drain. */
  function Iterate(c: Config, queue: seq<Item>): (i: Iteration)
    ensures |i.rest| <= |queue|
    ensures i.sender.Finished? || i.sender.Crashed? || i.sender.Draining?
  {
    var n := BatchLength(queue, c.batchSize);
    var last := n < c.batchSize && n < |queue|;
    var rest := queue[(if last then n + 1 else n)..];
    if n == 0 then Iteration(rest, [], Finished)
    else
      var frame := DataBatchFrame(Contents(queue[..n]), c.maxBatchRecords);
      if frame.Err? || !Encodable(c.codec, frame.value, c.maxFrameSize) then Iteration(rest, [], Crashed)
      else Iteration(rest, [frame.value], Draining(n, last))
  }

  function Min(a: nat, b: nat): nat {
    if a < b then a else b
  }

  function Max(a: nat, b: nat): nat {
    if a < b then b else a
  }

  function Withdrawn(calls: seq<nat>, call: nat): seq<nat> {
    Filter(calls, a => a != call)
  }

  /**
   A put finds the queue as it is when its turn comes: it goes in, or it blocks behind those that are blocked
   already. Every item that the sender takes wakes the first of these, which then waits for another turn; a put
   that is withdrawn after it was woken may wake the next one instead.
   */
  function Step(c: Config, s: State, e: Event): State
    requires Enabled(c, s, e)
  {
    match e
    case Start(drained) =>
      if !Encodable(c.codec, HelloFrame(c), c.maxFrameSize) then s.(lifecycle := Failed)
      else if !drained then s.(lifecycle := Failed, wire := [HelloFrame(c)])
      else s.(lifecycle := Running, sender := Getting, wire := [HelloFrame(c)])
    case SendBegins(call, record) => s.(waiting := s.waiting[call := Queued(record)], ready := s.ready + [call])
    case PutRuns(call) =>
      if |s.queue| >= c.queueCapacity then s.(ready := s.ready[1..], blocked := s.blocked + [call])
      else s.(ready := s.ready[1..], queue := s.queue + [s.waiting[call]],
              enqueued := s.enqueued + [s.waiting[call]], position := s.position[call := |s.enqueued|],
              waiting := s.waiting - {call})
    case SendReturns(call) =>
      s.(returned := s.returned + {call}, maxQueueDepth := Max(s.maxQueueDepth, |s.queue|))
    case SendRefused(call, wakes) =>
      s.(waiting := s.waiting - {call},
         ready := Withdrawn(s.ready, call) + (if wakes then [s.blocked[0]] else []),
         blocked := if wakes then s.blocked[1..] else Withdrawn(s.blocked, call),
         lifecycle := if s.sender == Finished then s.lifecycle else Failed)
    case SenderIterates =>
      var i := Iterate(c, s.queue);
      var woken := Min(|s.queue| - |i.rest|, |s.blocked|);
      s.(queue := i.rest, ready := s.ready + s.blocked[..woken], blocked := s.blocked[woken..],
         sender := i.sender, wire := s.wire + i.written,
         lifecycle := if i.sender.Crashed? then Failed else s.lifecycle)
    case SenderDrains(drained) =>
      if !drained then s.(sender := Crashed, lifecycle := Failed)
      else s.(sender := if s.sender.last then Finished else Getting,
              recordsSent := s.recordsSent + s.sender.records, batchesSent := s.batchesSent + 1)
    case CloseBegins(call) =>
      s.(lifecycle := Closing, closer := Putting, waiting := s.waiting[call := CloseMark],
         ready := s.ready + [call], closeCall := Some(call), beforeClose := s.returned)
    case ClosePutReturns => s.(closer := Joining, maxQueueDepth := Max(s.maxQueueDepth, |s.queue|))
    case CloseWritesEnd =>
      if !Encodable(c.codec, END_FRAME, c.maxFrameSize) then s.(closer := GaveUp, lifecycle := Failed)
      else s.(closer := DrainingEnd, wire := s.wire + [END_FRAME])
    case CloseDrains(drained) =>
      if drained then s.(closer := ClosedDown, lifecycle := Closed)
      else s.(closer := GaveUp, lifecycle := Failed)
    case CloseFails => s.(closer := GaveUp, lifecycle := Failed)
    case CloseUnstarted => s.(lifecycle := Closed)
    case AbortCancelsSender => s.(sender := Cancelled)
    case AbortEnds => s.(lifecycle := Closed)
    case WaiterSeesFailure => s.(lifecycle := Failed)
  }

  /** The state after a sequence of events, or None if some event was not enabled. */
  ghost function Run(c: Config, events: seq<Event>): Option<State> {
    if events == [] then Some(INITIAL)
    else
      match Run(c, events[..|events| - 1])
      case None => None
      case Some(s) =>
        var e := events[|events| - 1];
        if Enabled(c, s, e) then Some(Step(c, s, e)) else None
  }

  // ----- what every segment keeps -----

  /** The records on the wire, in order. */
  ghost function Sent(wire: seq<Frame>): seq<Record> {
    if wire == [] then []
    else
      var last := wire[|wire| - 1];
      Sent(wire[..|wire| - 1]) + (if last.payload.Records? then last.payload.records else [])
  }

  ghost predicate IsBatch(c: Config, f: Frame) {
    f.frameType == DataBatch && f.payload.Records? && 0 < |f.payload.records| <= c.batchSize
  }

  /** HELLO first, then batches within the size limit, then at most one END_OF_STREAM, at the very end. */
  ghost predicate Shaped(c: Config, wire: seq<Frame>) {
    && (wire != [] ==> wire[0] == HelloFrame(c))
    && (forall i :: 0 < i < |wire| ==> IsBatch(c, wire[i]) || (wire[i] == END_FRAME && i == |wire| - 1))
  }

  predicate Ended(wire: seq<Frame>) {
    wire != [] && wire[|wire| - 1] == END_FRAME
  }

  ghost function Taken(s: State): int {
    |s.enqueued| - |s.queue|
  }

  /** The queue is what has been put and not yet taken. */
  ghost predicate QueueInvariant(c: Config, s: State) {
    && |s.queue| <= c.queueCapacity && s.maxQueueDepth <= c.queueCapacity
    && Taken(s) >= 0 && s.queue == s.enqueued[Taken(s)..]
    && (s.sender == NotStarted ==> s.enqueued == [] && s.waiting.Keys == {})
  }

  /** Every call's item is in one place, and close's marker is the only marker. */
  ghost predicate CallInvariant(s: State) {
    PlaceInvariant(s) && CloseInvariant(s)
  }

  ghost predicate PlaceInvariant(s: State) {
    && s.waiting.Keys !! s.position.Keys
    && (forall a :: a in s.position ==> 0 <= s.position[a] < |s.enqueued|)
    && (forall a, b :: a in s.position && b in s.position && a != b ==> s.position[a] != s.position[b])
    && (forall i :: 0 <= i < |s.enqueued| && s.enqueued[i].CloseMark? ==>
          s.closeCall.Some? && s.closeCall.value in s.position && s.position[s.closeCall.value] == i)
  }

  ghost predicate CloseInvariant(s: State) {
    && (forall a :: a in s.position ==> 0 <= s.position[a] < |s.enqueued|)
    && (forall a :: a in s.waiting && s.waiting[a].CloseMark? ==> s.closeCall == Some(a))
    && (s.closeCall.Some? ==>
          && (s.closeCall.value in s.waiting ==> s.waiting[s.closeCall.value].CloseMark?)
          && (s.closeCall.value in s.position ==> s.enqueued[s.position[s.closeCall.value]].CloseMark?))
    && (s.lifecycle == Running ==> s.closer == NoCloser && s.sender != NotStarted)
    && (s.closer == NoCloser <==> s.closeCall == None)
    && (s.sender == NotStarted ==> s.closer == NoCloser)
  }

  predicate SenderAlive(s: State) {
    s.sender == Getting || s.sender.Draining?
  }

  /** Every put that is not done is either due for a turn or blocked; none is blocked while there is room for it. */
  ghost predicate PutInvariant(c: Config, s: State) {
    && NoDuplicates(s.ready) && NoDuplicates(s.blocked)
    && (forall a :: a in s.ready ==> a !in s.blocked)
    && (forall a :: a in s.waiting <==> a in s.ready || a in s.blocked)
    && (s.sender == NotStarted ==> s.ready == [] && s.blocked == [])
    && (s.blocked != [] && SenderAlive(s) ==> |s.queue| + |s.ready| >= c.queueCapacity)
  }

  /** Sends that returned before close began lie in front of the marker. */
  ghost predicate ReturnInvariant(s: State) {
    && (forall a :: a in s.returned ==> a in s.position && s.closeCall != Some(a))
    && s.beforeClose <= s.returned
    && (s.closeCall.Some? && s.closeCall.value in s.position ==>
          forall a :: a in s.beforeClose ==> s.position[a] < s.position[s.closeCall.value])
  }

  /** The sender has written what it took, and stops at the marker. */
  ghost predicate SenderInvariant(c: Config, s: State)
    requires Taken(s) >= 0
  {
    && (forall i :: 0 <= i < Taken(s) - 1 ==> s.enqueued[i].Queued?)
    && (s.sender == Getting ==> Taken(s) > 0 ==> s.enqueued[Taken(s) - 1].Queued?)
    && (s.sender.Draining? ==> Taken(s) > 0 && (s.sender.last <==> s.enqueued[Taken(s) - 1].CloseMark?))
    && (s.sender == Finished ==> Taken(s) > 0 && s.enqueued[Taken(s) - 1].CloseMark?)
    && (s.sender != Crashed ==> Sent(s.wire) == Contents(s.enqueued[..Taken(s)]))
    && Sent(s.wire) <= Contents(s.enqueued[..Taken(s)])
  }

  ghost predicate WireInvariant(c: Config, s: State) {
    && Shaped(c, s.wire) && AllEncodable(c.codec, s.wire, c.maxFrameSize)
    && (Ended(s.wire) ==> s.sender == Finished && s.closer in {DrainingEnd, ClosedDown, GaveUp})
    && (s.sender != NotStarted ==> s.wire != [])
    && (s.sender == NotStarted ==> |s.wire| <= 1)
  }

  ghost predicate Invariant(c: Config, s: State) {
    && QueueInvariant(c, s)
    && CallInvariant(s)
    && PutInvariant(c, s)
    && ReturnInvariant(s)
    && SenderInvariant(c, s)
    && WireInvariant(c, s)
  }

  lemma ContentsAppend(items: seq<Item>, item: Item)
    ensures Contents(items + [item]) == Contents(items) + (if item.Queued? then [item.record] else [])
  {
    assert (items + [item])[..|items|] == items;
  }

  lemma {:induction false} ContentsConcat(a: seq<Item>, b: seq<Item>)
    ensures Contents(a + b) == Contents(a) + Contents(b)
  {
    if b == [] {
      assert a + b == a;
    } else {
      var init, last := b[..|b| - 1], b[|b| - 1];
      ContentsConcat(a, init);
      assert a + b == (a + init) + [last];
      ContentsAppend(a + init, last);
    }
  }

  lemma {:induction false} ContentsAt(items: seq<Item>, i: nat)
    requires i < |items| && forall k :: 0 <= k < |items| ==> items[k].Queued?
    ensures |Contents(items)| == |items| && Contents(items)[i] == items[i].record
  {
    var init := items[..|items| - 1];
    if i < |init| {
      ContentsAt(init, i);
    } else if init != [] {
      ContentsAt(init, 0);
    }
  }

  lemma SentAppend(wire: seq<Frame>, f: Frame)
    ensures Sent(wire + [f]) == Sent(wire) + (if f.payload.Records? then f.payload.records else [])
  {
    assert (wire + [f])[..|wire|] == wire;
  }

  /**
   What one iteration takes from the queue: records up to the batch size, and the marker if it comes right
   behind them. What it writes is exactly the records it took, unless they do not fit a frame.
   */
  ghost predicate Takes(c: Config, queue: seq<Item>, i: Iteration, taken: nat) {
    && 0 < taken <= |queue| && i.rest == queue[taken..]
    && (forall k :: 0 <= k < taken - 1 ==> queue[k].Queued?)
    && (i.sender.Finished? ==> queue[taken - 1].CloseMark? && i.written == [] && Contents(queue[..taken]) == [])
    && (i.sender.Crashed? ==> i.written == [])
    && (i.sender.Draining? ==>
          && i.sender.last == queue[taken - 1].CloseMark?
          && |i.written| == 1 && IsBatch(c, i.written[0]) && Encodable(c.codec, i.written[0], c.maxFrameSize)
          && i.written[0].payload.records == Contents(queue[..taken]))
    && (i.sender.Finished? || i.sender.Crashed? || i.sender.Draining?)
  }

  lemma IterationTakes(c: Config, queue: seq<Item>) returns (taken: nat)
    requires c.Valid() && queue != []
    ensures Takes(c, queue, Iterate(c, queue), taken)
  {
    var n := BatchLength(queue, c.batchSize);
    taken := if n < c.batchSize && n < |queue| then n + 1 else n;
    if n > 0 {
      ContentsAt(queue[..n], 0);
    }
    if taken == n + 1 {
      assert queue[..n + 1] == queue[..n] + [queue[n]];
      ContentsAppend(queue[..n], queue[n]);
    }
  }

  /** Taking more from a log's queue, in terms of the log. */
  lemma TakenFrom(items: seq<Item>, t: nat, taken: nat)
    requires t + taken <= |items|
    ensures items[t..][taken..] == items[t + taken..]
    ensures Contents(items[..t + taken]) == Contents(items[..t]) + Contents(items[t..][..taken])
    ensures forall i :: t <= i < t + taken ==> items[i] == items[t..][i - t]
  {
    assert items[..t + taken] == items[..t] + items[t..][..taken];
    ContentsConcat(items[..t], items[t..][..taken]);
  }

  lemma IterationKeepsQueue(c: Config, s: State) returns (taken: nat)
    requires c.Valid() && QueueInvariant(c, s) && Enabled(c, s, SenderIterates)
    ensures QueueInvariant(c, Step(c, s, SenderIterates)) && Taken(Step(c, s, SenderIterates)) == Taken(s) + taken
    ensures Takes(c, s.queue, Iterate(c, s.queue), taken)
  {
    hide Iterate, Encodable, Contents;
    taken := IterationTakes(c, s.queue);
    TakenFrom(s.enqueued, Taken(s), taken);
  }

  lemma IterationKeepsSender(c: Config, s: State, i: Iteration, taken: nat, s': State)
    requires QueueInvariant(c, s) && SenderInvariant(c, s) && Takes(c, s.queue, i, taken) && s.sender == Getting
    requires s'.enqueued == s.enqueued && s'.sender == i.sender && s'.wire == s.wire + i.written
    requires Taken(s') == Taken(s) + taken
    ensures SenderInvariant(c, s')
  {
    hide QueueInvariant, Takes, Contents, Sent;
    IterationKeepsSent(c, s, i, taken, s');
    IterationKeepsMarks(c, s, i, taken, s');
  }

  lemma MarksExtend(items: seq<Item>, t: nat, taken: nat)
    requires 0 < taken && t + taken <= |items|
    requires forall k :: 0 <= k < t ==> items[k].Queued?
    requires forall k :: 0 <= k < taken - 1 ==> items[t..][k].Queued?
    ensures forall k :: 0 <= k < t + taken - 1 ==> items[k].Queued?
    ensures items[t + taken - 1] == items[t..][taken - 1]
  {
    forall k | t <= k < t + taken - 1 ensures items[k].Queued? {
      assert items[k] == items[t..][k - t];
    }
  }

  lemma IterationKeepsMarks(c: Config, s: State, i: Iteration, taken: nat, s': State)
    requires QueueInvariant(c, s) && SenderInvariant(c, s) && Takes(c, s.queue, i, taken) && s.sender == Getting
    requires s'.enqueued == s.enqueued && s'.sender == i.sender
    requires Taken(s') == Taken(s) + taken
    ensures 0 < Taken(s') <= |s'.enqueued| && forall k :: 0 <= k < Taken(s') - 1 ==> s'.enqueued[k].Queued?
    ensures s'.sender != Getting
    ensures s'.sender.Draining? ==> (s'.sender.last <==> s'.enqueued[Taken(s') - 1].CloseMark?)
    ensures s'.sender == Finished ==> s'.enqueued[Taken(s') - 1].CloseMark?
  {
    hide Contents, Sent, Encodable, IsBatch;
    var t := Taken(s);
    assert forall k :: 0 <= k < t ==> s.enqueued[k].Queued?;
    MarksExtend(s.enqueued, t, taken);
  }

  lemma IterationKeepsSent(c: Config, s: State, i: Iteration, taken: nat, s': State)
    requires QueueInvariant(c, s) && SenderInvariant(c, s) && Takes(c, s.queue, i, taken) && s.sender == Getting
    requires s'.enqueued == s.enqueued && s'.sender == i.sender && s'.wire == s.wire + i.written
    requires Taken(s') == Taken(s) + taken
    ensures s'.sender != Crashed ==> Sent(s'.wire) == Contents(s'.enqueued[..Taken(s')])
    ensures Sent(s'.wire) <= Contents(s'.enqueued[..Taken(s')])
  {
    hide Contents, Sent, Encodable;
    TakenFrom(s.enqueued, Taken(s), taken);
    if i.sender.Draining? {
      assert s'.wire == s.wire + [i.written[0]];
      SentAppend(s.wire, i.written[0]);
    } else {
      assert s'.wire == s.wire;
    }
  }

  lemma StepIterates(c: Config, s: State)
    requires Enabled(c, s, SenderIterates)
    ensures var s', i := Step(c, s, SenderIterates), Iterate(c, s.queue);
            s'.enqueued == s.enqueued && s'.sender == i.sender && s'.wire == s.wire + i.written
  {
    hide Iterate;
  }

  lemma IterationKeepsWire(c: Config, s: State)
    requires c.Valid() && WireInvariant(c, s) && Enabled(c, s, SenderIterates)
    ensures WireInvariant(c, Step(c, s, SenderIterates))
  {
    hide Iterate, Encodable, Contents;
    var taken := IterationTakes(c, s.queue);
  }

  lemma StartKeepsSender(c: Config, s: State, drained: bool)
    requires QueueInvariant(c, s) && SenderInvariant(c, s) && Enabled(c, s, Start(drained))
    ensures QueueInvariant(c, Step(c, s, Start(drained))) && SenderInvariant(c, Step(c, s, Start(drained)))
  {
    hide Encodable;
    SentAppend([], HelloFrame(c));
    assert [] + [HelloFrame(c)] == [HelloFrame(c)];
  }

  lemma PutKeepsInvariant(c: Config, s: State, call: nat)
    requires Invariant(c, s) && Enabled(c, s, PutRuns(call))
    ensures Invariant(c, Step(c, s, PutRuns(call)))
  {
    hide Contents, Sent;
    PutKeepsCalls(c, s, call);
    StepKeepsPuts(c, s, PutRuns(call));
    PutKeepsTaken(c, s, call);
    hide Step, CallInvariant, ReturnInvariant, PutInvariant;
  }

  lemma PutKeepsTaken(c: Config, s: State, call: nat)
    requires QueueInvariant(c, s) && SenderInvariant(c, s) && WireInvariant(c, s) && CallInvariant(s)
    requires Enabled(c, s, PutRuns(call))
    ensures var s' := Step(c, s, PutRuns(call));
            QueueInvariant(c, s') && SenderInvariant(c, s') && WireInvariant(c, s')
  {
    hide Contents, Sent, CallInvariant, Shaped;
    var s' := Step(c, s, PutRuns(call));
    assert s'.enqueued[..Taken(s')] == s.enqueued[..Taken(s)];
  }

  lemma PutKeepsCalls(c: Config, s: State, call: nat)
    requires CallInvariant(s) && ReturnInvariant(s) && Enabled(c, s, PutRuns(call))
    ensures CallInvariant(Step(c, s, PutRuns(call))) && ReturnInvariant(Step(c, s, PutRuns(call)))
  {
    hide PlaceInvariant, CloseInvariant, ReturnInvariant, Step, Enabled;
    PutKeepsPlaces(c, s, call);
    PutKeepsClose(c, s, call);
    PutKeepsReturns(c, s, call);
  }

  lemma PutKeepsPlaces(c: Config, s: State, call: nat)
    requires PlaceInvariant(s) && CloseInvariant(s) && Enabled(c, s, PutRuns(call))
    ensures PlaceInvariant(Step(c, s, PutRuns(call)))
  {
  }

  lemma PutKeepsClose(c: Config, s: State, call: nat)
    requires CloseInvariant(s) && Enabled(c, s, PutRuns(call))
    ensures CloseInvariant(Step(c, s, PutRuns(call)))
  {
  }

  lemma PutKeepsReturns(c: Config, s: State, call: nat)
    requires PlaceInvariant(s) && CloseInvariant(s) && ReturnInvariant(s) && Enabled(c, s, PutRuns(call))
    ensures ReturnInvariant(Step(c, s, PutRuns(call)))
  {
  }

  /** A turn of the first put that is due. */
  lemma RunKeepsPuts(c: Config, s: State, call: nat)
    requires PutInvariant(c, s) && Enabled(c, s, PutRuns(call))
    ensures PutInvariant(c, Step(c, s, PutRuns(call)))
  {
    assert s.ready == [call] + s.ready[1..];
    assert call !in s.ready[1..];
  }

  lemma RefusalKeepsPuts(c: Config, s: State, call: nat, wakes: bool)
    requires PutInvariant(c, s) && Enabled(c, s, SendRefused(call, wakes))
    ensures PutInvariant(c, Step(c, s, SendRefused(call, wakes)))
  {
    hide Withdrawn, NoDuplicates;
    WithdrawnAre(s.ready, call);
    WithdrawnAre(s.blocked, call);
    var ready := Withdrawn(s.ready, call);
    if wakes {
      SplitDistinct(s.blocked, 1);
      assert s.blocked[..1] == [s.blocked[0]];
      OneIsDistinct(s.blocked[0]);
      AppendDistinct(ready, [s.blocked[0]]);
    } else {
      assert ready + [] == ready;
    }
  }

  lemma WithdrawnAre(calls: seq<nat>, call: nat)
    requires NoDuplicates(calls)
    ensures NoDuplicates(Withdrawn(calls, call))
    ensures forall a :: a in Withdrawn(calls, call) <==> a in calls && a != call
  {
    FilterMembers(calls, a => a != call);
  }

  lemma OneIsDistinct(a: nat)
    ensures NoDuplicates([a])
  {
  }

  lemma WakingKeepsPuts(c: Config, s: State)
    requires PutInvariant(c, s) && Enabled(c, s, SenderIterates)
    ensures PutInvariant(c, Step(c, s, SenderIterates))
  {
    hide Iterate, NoDuplicates;
    var woken := Min(|s.queue| - |Iterate(c, s.queue).rest|, |s.blocked|);
    SplitDistinct(s.blocked, woken);
    AppendDistinct(s.ready, s.blocked[..woken]);
  }

  lemma StepKeepsPuts(c: Config, s: State, e: Event)
    requires QueueInvariant(c, s) && PutInvariant(c, s) && CallInvariant(s) && Enabled(c, s, e)
    ensures PutInvariant(c, Step(c, s, e))
  {
    match e {
      case PutRuns(call) => RunKeepsPuts(c, s, call);
      case SendRefused(call, wakes) => RefusalKeepsPuts(c, s, call, wakes);
      case SenderIterates => WakingKeepsPuts(c, s);
      case SendBegins(_, _) =>
      case CloseBegins(_) =>
      case _ =>
        PutsStay(c, s, e);
        hide Step, Enabled, CallInvariant;
    }
  }

  lemma PutsStay(c: Config, s: State, e: Event)
    requires Enabled(c, s, e) && !e.PutRuns? && !e.SendRefused? && !e.SenderIterates? && !e.SendBegins? && !e.CloseBegins?
    ensures var s' := Step(c, s, e);
            && s'.waiting == s.waiting && s'.ready == s.ready && s'.blocked == s.blocked && s'.queue == s.queue
            && (SenderAlive(s') ==> SenderAlive(s) || s.sender == NotStarted)
            && (s'.sender == NotStarted ==> s.sender == NotStarted)
  {
    hide Iterate, Encodable, HelloFrame;
  }

  /** The segments that begin, end or give up a call. */
  predicate ConcernsCalls(e: Event) {
    e.SendBegins? || e.SendReturns? || e.SendRefused? || e.CloseBegins? || e.PutRuns?
  }

  /** All other segments leave the calls alone. */
  lemma CallsStay(c: Config, s: State, e: Event)
    requires Enabled(c, s, e) && !ConcernsCalls(e)
    ensures var s' := Step(c, s, e);
            && s'.waiting == s.waiting && s'.position == s.position && s'.enqueued == s.enqueued
            && s'.returned == s.returned && s'.closeCall == s.closeCall && s'.beforeClose == s.beforeClose
            && (s'.lifecycle == Running ==> s.lifecycle == Running || (e.Start? && s'.sender != NotStarted))
            && (s'.closer == NoCloser <==> s.closer == NoCloser)
            && (s'.sender == NotStarted ==> s.sender == NotStarted)
            && (s.sender != NotStarted ==> s'.sender != NotStarted)
  {
    hide Iterate, Encodable, HelloFrame;
  }

  lemma QueueStays(c: Config, s: State, e: Event)
    requires Enabled(c, s, e) && !e.PutRuns? && !e.SenderIterates?
    ensures var s' := Step(c, s, e);
            && s'.queue == s.queue && s'.enqueued == s.enqueued
            && s'.maxQueueDepth <= Max(s.maxQueueDepth, |s.queue|)
            && (s'.sender == NotStarted ==> s.sender == NotStarted)
            && (s.sender == NotStarted && !e.SendBegins? && !e.CloseBegins? ==> s'.waiting.Keys <= s.waiting.Keys)
            && (e.SendBegins? || e.CloseBegins? ==> s.lifecycle == Running)
  {
    hide Iterate, Encodable, HelloFrame;
  }

  lemma StepKeepsQueue(c: Config, s: State, e: Event)
    requires QueueInvariant(c, s) && CallInvariant(s) && Enabled(c, s, e) && !e.SenderIterates? && !e.PutRuns?
    ensures QueueInvariant(c, Step(c, s, e))
  {
    hide Step, Enabled, PlaceInvariant;
    QueueStays(c, s, e);
  }

  lemma StepKeepsCalls(c: Config, s: State, e: Event)
    requires CallInvariant(s) && Enabled(c, s, e) && !e.PutRuns?
    ensures CallInvariant(Step(c, s, e))
  {
    if !ConcernsCalls(e) {
      CallsStay(c, s, e);
      hide Step, Enabled;
    } else {
      CallKeepsPlaces(c, s, e);
      hide PlaceInvariant;
    }
  }

  lemma CallKeepsPlaces(c: Config, s: State, e: Event)
    requires CallInvariant(s) && Enabled(c, s, e) && ConcernsCalls(e) && !e.PutRuns?
    ensures PlaceInvariant(Step(c, s, e))
  {
    assert Step(c, s, e).position == s.position && Step(c, s, e).enqueued == s.enqueued;
  }

  lemma StepKeepsReturns(c: Config, s: State, e: Event)
    requires CallInvariant(s) && ReturnInvariant(s) && Enabled(c, s, e) && !e.PutRuns?
    ensures ReturnInvariant(Step(c, s, e))
  {
    if !ConcernsCalls(e) {
      CallsStay(c, s, e);
      hide Step, Enabled, CallInvariant;
    } else {
      hide CloseInvariant;
    }
  }

  lemma SenderStays(c: Config, s: State, e: Event)
    requires Enabled(c, s, e) && !e.SenderIterates? && !e.PutRuns? && !e.Start?
    requires !e.SenderDrains? && !e.AbortCancelsSender? && !e.CloseWritesEnd?
    ensures var s' := Step(c, s, e);
            s'.sender == s.sender && s'.wire == s.wire && s'.queue == s.queue && s'.enqueued == s.enqueued
  {
    hide Iterate, Encodable, HelloFrame;
  }

  lemma StepKeepsSender(c: Config, s: State, e: Event)
    requires QueueInvariant(c, s) && SenderInvariant(c, s) && WireInvariant(c, s)
    requires Enabled(c, s, e) && !e.SenderIterates? && !e.PutRuns? && !e.Start?
    ensures Taken(Step(c, s, e)) >= 0 && SenderInvariant(c, Step(c, s, e))
  {
    hide Iterate, Encodable, Contents, Sent, Shaped;
    if e.CloseWritesEnd? {
      SentAppend(s.wire, END_FRAME);
    } else if !e.SenderDrains? && !e.AbortCancelsSender? {
      SenderStays(c, s, e);
      hide Step, Enabled, WireInvariant;
    }
  }

  lemma StepKeepsWire(c: Config, s: State, e: Event)
    requires CallInvariant(s) && WireInvariant(c, s) && Enabled(c, s, e) && !e.SenderIterates? && !e.PutRuns?
    ensures WireInvariant(c, Step(c, s, e))
  {
    hide Iterate, Encodable, PlaceInvariant;
  }

  /** Every enabled segment keeps the invariant. */
  lemma StepKeepsInvariant(c: Config, s: State, e: Event)
    requires c.Valid() && Invariant(c, s) && Enabled(c, s, e)
    ensures Invariant(c, Step(c, s, e))
  {
    hide Step, QueueInvariant, CallInvariant, PutInvariant, ReturnInvariant, SenderInvariant, WireInvariant;
    if e.PutRuns? {
      PutKeepsInvariant(c, s, e.call);
    } else {
      StepKeepsPuts(c, s, e);
      StepKeepsCalls(c, s, e);
      StepKeepsReturns(c, s, e);
      if e.SenderIterates? {
        var taken := IterationKeepsQueue(c, s);
        StepIterates(c, s);
        IterationKeepsSender(c, s, Iterate(c, s.queue), taken, Step(c, s, e));
        IterationKeepsWire(c, s);
      } else {
        StepKeepsQueue(c, s, e);
        StepKeepsWire(c, s, e);
        if e.Start? {
          StartKeepsSender(c, s, e.drained);
        } else {
          StepKeepsSender(c, s, e);
        }
      }
    }
  }

  lemma {:induction false} RunsKeepInvariant(c: Config, events: seq<Event>)
    requires c.Valid() && Run(c, events).Some?
    ensures Invariant(c, Run(c, events).value)
  {
    hide Step;
    if events != [] {
      RunsKeepInvariant(c, events[..|events| - 1]);
      StepKeepsInvariant(c, Run(c, events[..|events| - 1]).value, events[|events| - 1]);
    }
  }

  // ----- the theorems -----

  /** On every run the wire is HELLO, batches within the limit, and at most one END_OF_STREAM at its end. */
  lemma WireIsShaped(c: Config, events: seq<Event>)
    requires c.Valid() && Run(c, events).Some?
    ensures Shaped(c, Run(c, events).value.wire)
    ensures AllEncodable(c.codec, Run(c, events).value.wire, c.maxFrameSize)
  {
    RunsKeepInvariant(c, events);
  }

  /** On every run the batches, laid end to end, are a prefix of what was put into the queue, in that order. */
  lemma SentIsPrefixOfEnqueued(c: Config, events: seq<Event>)
    requires c.Valid() && Run(c, events).Some?
    ensures var s := Run(c, events).value;
            Sent(s.wire) <= Contents(s.enqueued) && |s.queue| <= c.queueCapacity && s.maxQueueDepth <= c.queueCapacity
  {
    hide Run, CallInvariant, ReturnInvariant, WireInvariant, Contents, Sent;
    RunsKeepInvariant(c, events);
    var s := Run(c, events).value;
    ContentsConcat(s.enqueued[..Taken(s)], s.queue);
    assert s.enqueued == s.enqueued[..Taken(s)] + s.queue;
  }

  /**
   If END_OF_STREAM is on the wire, what precedes it is exactly the records put before close's marker. The
   call of send behind each of them has its own place there, and every send that returned before close began
   is among them.
   */
  lemma EndOfStreamIsComplete(c: Config, events: seq<Event>)
    requires c.Valid() && Run(c, events).Some? && Ended(Run(c, events).value.wire)
    ensures var s := Run(c, events).value;
            && s.closeCall.Some? && s.closeCall.value in s.position
            && var marker := s.position[s.closeCall.value];
            && marker <= |s.enqueued|
            && Sent(s.wire) == Contents(s.enqueued[..marker]) && |Sent(s.wire)| == marker
            && (forall call :: call in s.position && s.position[call] < marker ==>
                  s.enqueued[s.position[call]] == Queued(Sent(s.wire)[s.position[call]]))
            && (forall a, b :: a in s.position && b in s.position && a != b ==> s.position[a] != s.position[b])
            && (forall call :: call in s.beforeClose ==> call in s.position && s.position[call] < marker)
  {
    hide Run, Sent, Contents, PutInvariant, Shaped, AllEncodable;
    RunsKeepInvariant(c, events);
    var s := Run(c, events).value;
    var marker := Taken(s) - 1;
    assert s.enqueued[..Taken(s)] == s.enqueued[..marker] + [s.enqueued[marker]];
    ContentsAppend(s.enqueued[..marker], s.enqueued[marker]);
    if marker > 0 {
      ContentsAt(s.enqueued[..marker], 0);
    } else {
      NoContents();
    }
    forall call | call in s.position && s.position[call] < marker
      ensures s.enqueued[s.position[call]] == Queued(Sent(s.wire)[s.position[call]])
    {
      ContentsAt(s.enqueued[..marker], s.position[call]);
    }
  }

  lemma ContentsBehindMarker(items: seq<Item>, marker: nat)
    requires marker < |items| && forall i :: 0 <= i < |items| ==> (items[i].CloseMark? <==> i == marker)
    ensures Contents(items) == Contents(items[..marker]) <==> marker == |items| - 1
  {
    hide Contents;
    var before, behind := items[..marker], items[marker + 1..];
    assert items == (before + [items[marker]]) + behind;
    ContentsAppend(before, items[marker]);
    ContentsConcat(before + [items[marker]], behind);
    if behind != [] {
      assert forall i :: 0 <= i < |behind| ==> behind[i] == items[marker + 1 + i];
      ContentsAt(behind, 0);
    } else {
      NoContents();
    }
  }

  lemma NoContents()
    ensures Contents([]) == []
  {
  }

  /** What a call put, or waits to put, is the record that it was called with. */
  ghost predicate CallsMatch(events: seq<Event>, s: State) {
    && (forall a :: a in s.waiting && s.waiting[a].Queued? ==> SendBegins(a, s.waiting[a].record) in events)
    && (forall a :: a in s.position && 0 <= s.position[a] < |s.enqueued| && s.enqueued[s.position[a]].Queued?
          ==> SendBegins(a, s.enqueued[s.position[a]].record) in events)
  }

  lemma {:induction false} CallsKeepTheirRecord(c: Config, events: seq<Event>)
    requires c.Valid() && Run(c, events).Some?
    ensures CallsMatch(events, Run(c, events).value)
  {
    if events != [] {
      var before, e := events[..|events| - 1], events[|events| - 1];
      CallsKeepTheirRecord(c, before);
      RunsKeepInvariant(c, before);
      assert events == before + [e];
      assert forall x :: x in before ==> x in events;
      MatchStep(c, before, Run(c, before).value, e);
    }
  }

  lemma MatchStep(c: Config, events: seq<Event>, s: State, e: Event)
    requires CallInvariant(s) && Enabled(c, s, e) && CallsMatch(events, s)
    ensures CallsMatch(events + [e], Step(c, s, e))
  {
    assert forall x :: x in events || x == e ==> x in events + [e];
    if !ConcernsCalls(e) {
      CallsStay(c, s, e);
      hide Step, Enabled, CallInvariant;
    } else {
      hide CloseInvariant;
    }
  }

  lemma Extend(c: Config, events: seq<Event>, s: State, e: Event, s': State)
    returns (events': seq<Event>)
    requires Run(c, events) == Some(s) && Enabled(c, s, e) && Step(c, s, e) == s'
    ensures events' == events + [e] && Run(c, events') == Some(s')
  {
    events' := events + [e];
    assert events'[..|events|] == events;
  }
}
