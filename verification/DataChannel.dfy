/** The channel as the object it is: each method is one segment of a coroutine, and refines `Channel.Step`. */
module DataChannel {
  import opened Wrappers
  import opened Records
  import opened Sequences
  import opened Protocol
  import opened Channel

  datatype ChannelError = NotRunning | ChannelFailed | SendFailed

  /** How a call of close finds the channel. */
  datatype CloseStart = Begun | NeverStarted | AlreadyClosed | FailedEarlier | ClosingAlready

  /**
   The sender's inner loop: waits for nothing, takes records up to the size, and drops a marker it meets. Each
   item that it takes wakes the put that has been blocked longest.
   */
  method TakeBatch(queue: seq<Item>, size: nat, ready: seq<nat>, blocked: seq<nat>)
    returns (batch: seq<Record>, shouldClose: bool, rest: seq<Item>, ready': seq<nat>, blocked': seq<nat>)
    requires queue != [] && 0 < size
    ensures var n := BatchLength(queue, size);
            && |batch| == n && batch == Contents(queue[..n])
            && shouldClose == (n < size && n < |queue|)
            && rest == queue[(if shouldClose then n + 1 else n)..]
    ensures var woken := Min(|queue| - |rest|, |blocked|);
            ready' == ready + blocked[..woken] && blocked' == blocked[woken..]
  {
    hide BatchLength, Contents;
    ghost var n := BatchLength(queue, size);
    NoContents();
    batch, shouldClose, rest, ready', blocked' := [], false, queue, ready, blocked;
    while |batch| < size && !shouldClose && rest != []
      invariant |batch| <= n <= |queue|
      invariant batch == Contents(queue[..|batch|])
      invariant shouldClose ==> |batch| == n < size && n < |queue|
      invariant rest == queue[(if shouldClose then n + 1 else |batch|)..]
      invariant var woken := Min(|queue| - |rest|, |blocked|);
                ready' == ready + blocked[..woken] && blocked' == blocked[woken..]
      decreases |rest|
    {
      var item := rest[0];
      assert item == queue[|batch|];
      rest := rest[1..];
      if blocked' != [] {
        ready', blocked' := ready' + [blocked'[0]], blocked'[1..];
      }
      if item.CloseMark? {
        shouldClose := true;
      } else {
        assert queue[..|batch| + 1] == queue[..|batch|] + [item];
        ContentsAppend(queue[..|batch|], item);
        batch := batch + [item.record];
      }
    }
  }

  // What single steps come to, field by field.

  /** Everything but the puts, the queue and the log is as before. */
  predicate OnlyPutsDiffer(s: State, t: State) {
    && t.sender == s.sender && t.closer == s.closer && t.wire == s.wire && t.closeCall == s.closeCall
    && t.recordsSent == s.recordsSent && t.batchesSent == s.batchesSent && t.maxQueueDepth == s.maxQueueDepth
  }

  lemma PutStep(c: Config, s: State, call: nat)
    requires Enabled(c, s, PutRuns(call))
    ensures s.ready != [] && s.ready[0] == call && call in s.waiting
    ensures var t := Step(c, s, PutRuns(call));
            && OnlyPutsDiffer(s, t) && t.lifecycle == s.lifecycle && t.ready == s.ready[1..]
            && if |s.queue| >= c.queueCapacity
               then t.blocked == s.blocked + [call] && t.queue == s.queue && t.enqueued == s.enqueued
                    && t.position == s.position && t.waiting == s.waiting
               else t.blocked == s.blocked && t.queue == s.queue + [s.waiting[call]]
                    && |t.enqueued| == |s.enqueued| + 1 && t.position == s.position[call := |s.enqueued|]
                    && t.waiting == s.waiting - {call}
  {
  }

  lemma RefusalStep(c: Config, s: State, call: nat, wakes: bool)
    requires Enabled(c, s, SendRefused(call, wakes))
    ensures wakes ==> s.blocked != []
    ensures var t := Step(c, s, SendRefused(call, wakes));
            && OnlyPutsDiffer(s, t) && t.waiting == s.waiting - {call}
            && t.queue == s.queue && t.enqueued == s.enqueued && t.position == s.position
            && t.ready == Withdrawn(s.ready, call) + (if wakes then [s.blocked[0]] else [])
            && t.blocked == (if wakes then s.blocked[1..] else Withdrawn(s.blocked, call))
            && t.lifecycle == (if s.sender == Finished then s.lifecycle else Failed)
  {
  }

  /** What an iteration does to the queue and the puts, and what it leaves alone. */
  predicate TookBatch(s: State, t: State, rest: seq<Item>, ready: seq<nat>, blocked: seq<nat>) {
    && t.queue == rest && t.ready == ready && t.blocked == blocked
    && t.waiting == s.waiting && t.enqueued == s.enqueued && t.position == s.position
    && t.closer == s.closer && t.closeCall == s.closeCall && t.recordsSent == s.recordsSent
    && t.batchesSent == s.batchesSent && t.maxQueueDepth == s.maxQueueDepth
  }

  /** What it does with the batch that it took. */
  predicate Written(c: Config, s: State, t: State, batch: seq<Record>, shouldClose: bool) {
    var frame := DataBatchFrame(batch, c.maxBatchRecords);
    if batch == [] then t.sender == Finished && t.lifecycle == s.lifecycle && t.wire == s.wire
    else if frame.Err? || !Encodable(c.codec, frame.value, c.maxFrameSize)
    then t.sender == Crashed && t.lifecycle == Failed && t.wire == s.wire
    else t.sender == Draining(|batch|, shouldClose) && t.lifecycle == s.lifecycle && t.wire == s.wire + [frame.value]
  }

  /** What an iteration comes to, in terms of the batch that was taken. */
  lemma IterationComesTo(c: Config, s: State, batch: seq<Record>, shouldClose: bool, rest: seq<Item>,
                       ready: seq<nat>, blocked: seq<nat>)
    requires c.Valid() && Enabled(c, s, SenderIterates)
    requires var n := BatchLength(s.queue, c.batchSize);
             && |batch| == n && batch == Contents(s.queue[..n]) && shouldClose == (n < c.batchSize && n < |s.queue|)
             && rest == s.queue[(if shouldClose then n + 1 else n)..]
    requires var woken := Min(|s.queue| - |rest|, |s.blocked|);
             ready == s.ready + s.blocked[..woken] && blocked == s.blocked[woken..]
    ensures var t := Step(c, s, SenderIterates);
            TookBatch(s, t, rest, ready, blocked) && Written(c, s, t, batch, shouldClose)
  {
    hide Encodable, Contents, BatchLength, DataBatchFrame;
    assert s.wire + [] == s.wire;
  }

  lemma HasItems(c: Config, s: State)
    requires Enabled(c, s, SenderIterates)
    ensures s.queue != []
  {
  }

  lemma CloseStep(c: Config, s: State, call: nat)
    requires Enabled(c, s, CloseBegins(call))
    ensures var t := Step(c, s, CloseBegins(call));
            && t.lifecycle == Closing && t.closer == Putting && t.waiting == s.waiting[call := CloseMark]
            && t.ready == s.ready + [call] && t.closeCall == Some(call) && t.blocked == s.blocked
            && t.queue == s.queue && t.enqueued == s.enqueued && t.position == s.position
            && t.sender == s.sender && t.wire == s.wire && t.recordsSent == s.recordsSent
            && t.batchesSent == s.batchesSent && t.maxQueueDepth == s.maxQueueDepth
  {
  }

  /** What the event loop knows of the calls: their puts outstanding, due and blocked, and where the others went. */
  datatype Calls = Calls(
    waiting: map<nat, Item>, ready: seq<nat>, blocked: seq<nat>, position: map<nat, nat>, closeCall: Option<nat>, puts: nat)

  function CallsOf(s: State): Calls {
    Calls(s.waiting, s.ready, s.blocked, s.position, s.closeCall, |s.enqueued|)
  }

  /** The channel object. `state` is the state of the protocol that its fields amount to, with its history. */
  class BoundedDataChannel {
    const config: Config
    var lifecycle: Lifecycle
    var queue: seq<Item>
    var sender: Sender
    var closer: Closer
    var recordsSent: nat
    var batchesSent: nat
    var maxQueueDepth: nat
    var written: seq<Frame>
    var calls: Calls
    ghost var state: State

    ghost predicate Valid()
      reads this
    {
      && config.Valid() && Invariant(config, state)
      && lifecycle == state.lifecycle && queue == state.queue && sender == state.sender && closer == state.closer
      && recordsSent == state.recordsSent && batchesSent == state.batchesSent && maxQueueDepth == state.maxQueueDepth
      && written == state.wire && calls == CallsOf(state)
    }

    constructor (config: Config)
      requires config.Valid()
      ensures Valid() && this.config == config && state == INITIAL
    {
      this.config := config;
      lifecycle, sender, closer := New, NotStarted, NoCloser;
      queue, written, calls := [], [], Calls(map[], [], [], map[], None, 0);
      recordsSent, batchesSent, maxQueueDepth := 0, 0, 0;
      state := INITIAL;
      new;
      RunsKeepInvariant(config, []);
    }

    /** Sends HELLO; `drained` is whether the writer could drain it. */
    method Start(drained: bool) returns (r: Result<(), ChannelError>)
      requires Valid()
      modifies this
      ensures Valid()
      ensures if old(Enabled(config, state, Event.Start(drained)))
              then state == Step(config, old(state), Event.Start(drained)) && r.Ok? == lifecycle.Running?
              else state == old(state) && r == Err(NotRunning)
    {
      hide Invariant, Encodable, Iterate;
      if lifecycle != New || sender != NotStarted || written != [] {
        return Err(NotRunning);
      }
      StepKeepsInvariant(config, state, Event.Start(drained));
      state := Step(config, state, Event.Start(drained));
      if !Encodable(config.codec, HelloFrame(config), config.maxFrameSize) {
        lifecycle := Failed;
        return Err(SendFailed);
      }
      written := [HelloFrame(config)];
      if !drained {
        lifecycle := Failed;
        return Err(SendFailed);
      }
      lifecycle, sender := Running, Getting;
      return Ok(());
    }

    /** The guard of send, up to the await of its put. */
    method BeginSend(call: nat, record: Record) returns (r: Result<(), ChannelError>)
      requires Valid() && call !in calls.waiting && call !in calls.position
      modifies this
      ensures Valid()
      ensures if old(lifecycle) == Running
              then r == Ok(()) && state == Step(config, old(state), SendBegins(call, record))
              else r == Err(if lifecycle == Failed then ChannelFailed else NotRunning) && state == old(state)
    {
      hide Invariant, Encodable, Iterate;
      if lifecycle != Running {
        return Err(if lifecycle == Failed then ChannelFailed else NotRunning);
      }
      StepKeepsInvariant(config, state, SendBegins(call, record));
      state := Step(config, state, SendBegins(call, record));
      calls := calls.(waiting := calls.waiting[call := Queued(record)], ready := calls.ready + [call]);
      return Ok(());
    }

    /** The turn of the put that is due first: it goes into the queue, or blocks. */
    method RunPut(call: nat) returns (done: bool)
      requires Valid() && Enabled(config, state, PutRuns(call))
      modifies this
      ensures Valid()
      ensures done <==> |old(queue)| < config.queueCapacity
      ensures state == Step(config, old(state), PutRuns(call))
    {
      hide Invariant, Step, Enabled;
      PutStep(config, state, call);
      StepKeepsInvariant(config, state, PutRuns(call));
      state := Step(config, state, PutRuns(call));
      var rest := calls.ready[1..];
      if |queue| >= config.queueCapacity {
        calls := calls.(ready := rest, blocked := calls.blocked + [call]);
        return false;
      }
      queue := queue + [calls.waiting[call]];
      calls := calls.(ready := rest, waiting := calls.waiting - {call}, puts := calls.puts + 1,
                      position := calls.position[call := calls.puts]);
      return true;
    }

    /** send after its wait, when the put went through. */
    method ReturnSend(call: nat)
      requires Valid() && Enabled(config, state, SendReturns(call))
      modifies this
      ensures Valid() && state == Step(config, old(state), SendReturns(call))
    {
      hide Invariant, Encodable, Iterate;
      StepKeepsInvariant(config, state, SendReturns(call));
      state := Step(config, state, SendReturns(call));
      maxQueueDepth := Max(maxQueueDepth, |queue|);
    }

    /**
     send after its wait, when the sender has ended first: the put is withdrawn. If it had been woken, the next
     blocked put may be woken in its stead (`wakes`).
     */
    method RefuseSend(call: nat, wakes: bool) returns (error: ChannelError)
      requires Valid() && Enabled(config, state, SendRefused(call, wakes))
      modifies this
      ensures Valid() && state == Step(config, old(state), SendRefused(call, wakes))
      ensures error == if sender == Finished then NotRunning else ChannelFailed
    {
      hide Invariant, Step, Enabled, Withdrawn;
      RefusalStep(config, state, call, wakes);
      StepKeepsInvariant(config, state, SendRefused(call, wakes));
      state := Step(config, state, SendRefused(call, wakes));
      calls := calls.(waiting := calls.waiting - {call},
                      ready := Withdrawn(calls.ready, call) + (if wakes then [calls.blocked[0]] else []),
                      blocked := if wakes then calls.blocked[1..] else Withdrawn(calls.blocked, call));
      error := if sender == Finished then NotRunning else ChannelFailed;
      lifecycle := if sender == Finished then lifecycle else Failed;
    }

    /** One iteration of the sender loop: takes a batch, stops at the marker, writes what it took. */
    method IterateSender()
      requires Valid() && Enabled(config, state, SenderIterates)
      modifies this
      ensures Valid() && state == Step(config, old(state), SenderIterates)
    {
      hide Invariant, Encodable, Contents, BatchLength, Step, Enabled, DataBatchFrame, Min, Written;
      assert queue != [] by { HasItems(config, state); }
      StepKeepsInvariant(config, state, SenderIterates);
      var batch, shouldClose, rest, due, still := TakeBatch(queue, config.batchSize, calls.ready, calls.blocked);
      IterationComesTo(config, state, batch, shouldClose, rest, due, still);
      WriteBatch(batch, shouldClose, rest, due, still, Step(config, state, SenderIterates));
    }

    /** The rest of the iteration: writes the batch, if there is one; the sender then waits, has finished, or failed. */
    method WriteBatch(batch: seq<Record>, shouldClose: bool, rest: seq<Item>, due: seq<nat>, still: seq<nat>, ghost t: State)
      requires Valid() && Invariant(config, t) && TookBatch(state, t, rest, due, still)
      requires Written(config, state, t, batch, shouldClose)
      modifies this
      ensures Valid() && state == t
    {
      hide Invariant, Encodable, DataBatchFrame;
      state, queue, calls := t, rest, calls.(ready := due, blocked := still);
      if batch == [] {
        sender := Finished;
        return;
      }
      var frame := DataBatchFrame(batch, config.maxBatchRecords);
      if frame.Err? || !Encodable(config.codec, frame.value, config.maxFrameSize) {
        sender, lifecycle := Crashed, Failed;
      } else {
        written, sender := written + [frame.value], Draining(|batch|, shouldClose);
      }
    }

    /** The sender after its await of drain. */
    method FinishDrain(drained: bool)
      requires Valid() && Enabled(config, state, SenderDrains(drained))
      modifies this
      ensures Valid() && state == Step(config, old(state), SenderDrains(drained))
    {
      hide Invariant, Encodable, Iterate;
      StepKeepsInvariant(config, state, SenderDrains(drained));
      state := Step(config, state, SenderDrains(drained));
      if !drained {
        sender, lifecycle := Crashed, Failed;
        return;
      }
      recordsSent, batchesSent := recordsSent + sender.records, batchesSent + 1;
      sender := if sender.last then Finished else Getting;
    }

    /** close up to its first await; only a running channel begins to close. */
    method BeginClose(call: nat) returns (r: CloseStart)
      requires Valid() && call !in calls.waiting && call !in calls.position
      modifies this
      ensures Valid()
      ensures match old(lifecycle)
              case Running => r == Begun && state == Step(config, old(state), CloseBegins(call))
              case New => r == NeverStarted && state == Step(config, old(state), CloseUnstarted)
              case Closing => r == ClosingAlready && state == old(state)
              case Closed => r == AlreadyClosed && state == old(state)
              case Failed => r == FailedEarlier && state == old(state)
    {
      hide Invariant, Encodable, Iterate;
      match lifecycle {
        case Closed => return AlreadyClosed;
        case New =>
          StepKeepsInvariant(config, state, CloseUnstarted);
          state := Step(config, state, CloseUnstarted);
          lifecycle := Closed;
          return NeverStarted;
        case Failed => return FailedEarlier;
        case Closing => return ClosingAlready;
        case Running =>
          MarkClosing(call);
          return Begun;
      }
    }

    method MarkClosing(call: nat)
      requires Valid() && Enabled(config, state, CloseBegins(call))
      modifies this
      ensures Valid() && state == Step(config, old(state), CloseBegins(call))
    {
      hide Invariant, Step, Enabled;
      CloseStep(config, state, call);
      StepKeepsInvariant(config, state, CloseBegins(call));
      state := Step(config, state, CloseBegins(call));
      lifecycle, closer := Closing, Putting;
      calls := calls.(waiting := calls.waiting[call := CloseMark], ready := calls.ready + [call], closeCall := Some(call));
    }

    /** close once its marker is in the queue: it goes on to wait for the sender. */
    method JoinSender()
      requires Valid() && Enabled(config, state, ClosePutReturns)
      modifies this
      ensures Valid() && state == Step(config, old(state), ClosePutReturns)
    {
      hide Invariant, Encodable, Iterate;
      StepKeepsInvariant(config, state, ClosePutReturns);
      state := Step(config, state, ClosePutReturns);
      closer, maxQueueDepth := Joining, Max(maxQueueDepth, |queue|);
    }

    /** close once the sender has finished: END_OF_STREAM is written, then drained. */
    method WriteEnd()
      requires Valid() && Enabled(config, state, CloseWritesEnd)
      modifies this
      ensures Valid() && state == Step(config, old(state), CloseWritesEnd)
    {
      hide Invariant, Encodable, Iterate;
      StepKeepsInvariant(config, state, CloseWritesEnd);
      state := Step(config, state, CloseWritesEnd);
      if Encodable(config.codec, END_FRAME, config.maxFrameSize) {
        written, closer := written + [END_FRAME], DrainingEnd;
      } else {
        closer, lifecycle := GaveUp, Failed;
      }
    }

    method FinishClose(drained: bool)
      requires Valid() && Enabled(config, state, CloseDrains(drained))
      modifies this
      ensures Valid() && state == Step(config, old(state), CloseDrains(drained))
    {
      hide Invariant, Encodable, Iterate;
      StepKeepsInvariant(config, state, CloseDrains(drained));
      state := Step(config, state, CloseDrains(drained));
      closer, lifecycle := if drained then ClosedDown else GaveUp, if drained then Closed else Failed;
    }

    /** abort cancels a sender that is still at work, then marks the channel closed; it never writes. */
    method Abort()
      requires Valid()
      modifies this
      ensures Valid() && lifecycle == Closed && written == old(written)
      ensures sender == if old(sender).Getting? || old(sender).Draining? then Cancelled else old(sender)
      ensures state == old(state).(sender := sender, lifecycle := Closed)
    {
      hide Invariant, Encodable, Iterate;
      if sender == Getting || sender.Draining? {
        StepKeepsInvariant(config, state, AbortCancelsSender);
        state := Step(config, state, AbortCancelsSender);
        sender := Cancelled;
      }
      StepKeepsInvariant(config, state, AbortEnds);
      state := Step(config, state, AbortEnds);
      lifecycle := Closed;
    }
  }
}
