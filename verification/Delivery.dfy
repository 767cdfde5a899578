/**
 A channel and its receiver together: whatever bytes of the sender's wire arrive, the consumer gets a prefix
 of what was sent, and is told of a clean end exactly when every byte up to END_OF_STREAM has arrived.
 */
module Delivery {
  import opened Wrappers
  import opened Records
  import opened Sequences
  import opened Protocol
  import opened Channel
  import opened Server

  /** A receiver that accepts every frame its sender may write. */
  predicate Accepts(limits: Limits, c: Config) {
    c.maxFrameSize <= limits.maxFrameSize && c.batchSize <= limits.maxBatchRecords
  }

  /** A larger limit changes no encoding. */
  lemma {:induction false} EncodingIgnoresLimit(codec: Codec, frames: seq<Frame>, small: nat, large: nat)
    requires small <= large && AllEncodable(codec, frames, small)
    ensures AllEncodable(codec, frames, large)
    ensures EncodeAll(codec, frames, large) == EncodeAll(codec, frames, small)
  {
    if frames != [] {
      EncodingIgnoresLimit(codec, frames[1..], small, large);
    }
  }

  lemma {:induction false} SentFromFront(first: Frame, rest: seq<Frame>)
    ensures Sent([first] + rest) == (if first.payload.Records? then first.payload.records else []) + Sent(rest)
  {
    if rest == [] {
      assert [first] + rest == [] + [first];
      SentAppend([], first);
    } else {
      var init, last := rest[..|rest| - 1], rest[|rest| - 1];
      SentFromFront(first, init);
      assert [first] + rest == ([first] + init) + [last];
      SentAppend([first] + init, last);
      assert rest == init + [last];
      SentAppend(init, last);
    }
  }

  /** A run of batches, possibly closed by END_OF_STREAM. */
  ghost predicate Body(c: Config, frames: seq<Frame>) {
    forall i :: 0 <= i < |frames| ==> IsBatch(c, frames[i]) || (frames[i] == END_FRAME && i == |frames| - 1)
  }

  /** The read loop delivers every record of such a run, and closes the input just when it ends properly. */
  lemma {:induction false} ReceiveBody(c: Config, frames: seq<Frame>, maxBatchRecords: nat)
    requires Body(c, frames) && c.batchSize <= maxBatchRecords
    ensures Receive(frames, ConnectionClosed, -1, maxBatchRecords) ==
            Reception(Sent(frames), if Ended(frames) then 1 else 0,
                      if Ended(frames) then None else Some(ConnectionError.Protocol(ConnectionClosed)))
  {
    if frames != [] {
      var first, rest := frames[0], frames[1..];
      assert frames == [first] + rest;
      SentFromFront(first, rest);
      if IsBatch(c, first) {
        ReceiveBody(c, rest, maxBatchRecords);
        assert Ended(frames) <==> Ended(rest);
      } else {
        assert rest == [] && Sent(rest) == [];
      }
    }
  }

  lemma {:induction false} SentPrefix(wire: seq<Frame>, n: nat)
    requires n <= |wire|
    ensures Sent(wire[..n]) <= Sent(wire)
  {
    if n < |wire| {
      var init := wire[..|wire| - 1];
      SentPrefix(init, n);
      assert init[..n] == wire[..n];
    } else {
      assert wire[..n] == wire;
    }
  }

  /** What the receiver makes of the first n whole frames of a wire and an unfinished rest. */
  lemma HandleFrames(c: Config, limits: Limits, registrations: map<ChannelIdentity, Registration>,
                     frames: seq<Frame>, tail: seq<Byte>)
    requires c.Valid() && c.codec.RoundTrips() && Accepts(limits, c)
    requires c.identity in registrations && registrations[c.identity].activeWriters == {}
    requires Shaped(c, frames) && AllEncodable(c.codec, frames, limits.maxFrameSize)
    requires UnfinishedFrame(c.codec, tail, limits.maxFrameSize)
    ensures var bytes := EncodeAll(c.codec, frames, limits.maxFrameSize) + tail;
            var r := Handle(c.codec, limits, registrations, bytes).reception;
            && r.delivered == Sent(frames)
            && r.inputClosed == (if Ended(frames) then 1 else 0)
            && (r.failure.None? <==> Ended(frames))
  {
    hide UnfinishedFrame, Encodable, Encoding, DecodeRound, Receive, Sent;
    var bytes := EncodeAll(c.codec, frames, limits.maxFrameSize) + tail;
    if frames == [] {
      assert bytes == tail;
      UnfinishedWaits(c.codec, limits.maxFrameSize, tail);
      SentNothing();
    } else {
      var body := frames[1..];
      var rest := EncodeAll(c.codec, body, limits.maxFrameSize) + tail;
      assert bytes == Encoding(c.codec, frames[0], limits.maxFrameSize) + rest;
      DecodeEncoded(c.codec, limits.maxFrameSize, frames[0], rest);
      BodyFollows(c, frames);
      ReadBody(c, limits, body, tail);
      assert frames == [frames[0]] + body;
      SentFromFront(frames[0], body);
    }
  }

  lemma SentNothing()
    ensures Sent([]) == []
  {
  }

  lemma BodyFollows(c: Config, frames: seq<Frame>)
    requires Shaped(c, frames) && frames != []
    ensures frames[0] == HelloFrame(c) && Body(c, frames[1..])
    ensures Ended(frames[1..]) <==> Ended(frames)
  {
  }

  lemma ReadBody(c: Config, limits: Limits, body: seq<Frame>, tail: seq<Byte>)
    requires c.codec.RoundTrips() && Accepts(limits, c) && Body(c, body)
    requires AllEncodable(c.codec, body, limits.maxFrameSize)
    requires UnfinishedFrame(c.codec, tail, limits.maxFrameSize)
    ensures var (frames, end) :=
              ReadAll(c.codec, limits.maxFrameSize, EncodeAll(c.codec, body, limits.maxFrameSize) + tail);
            var r := Receive(frames, end, -1, limits.maxBatchRecords);
            && r.delivered == Sent(body)
            && r.inputClosed == (if Ended(body) then 1 else 0)
            && (r.failure.None? <==> Ended(body))
  {
    DrainRoundTrip(c.codec, limits.maxFrameSize, body, tail);
    ReaderAgreesWithDecoder(c.codec, limits.maxFrameSize, EncodeAll(c.codec, body, limits.maxFrameSize) + tail);
    ReceiveBody(c, body, limits.maxBatchRecords);
  }

  /**
   No silent gap. Take any run of a channel, its wire as bytes, and any prefix of them reaching the receiver:
   the consumer gets a prefix of the records in the order they were put. It is told of a clean end, once, if
   and only if all bytes arrived and the wire ends in END_OF_STREAM; it then has every record that was sent,
   among them those of every send that returned before close began. Otherwise the connection has failed.
   */
  lemma NoSilentGap(c: Config, events: seq<Event>, limits: Limits,
                    registrations: map<ChannelIdentity, Registration>, arrived: seq<Byte>)
    requires c.Valid() && c.codec.RoundTrips() && Accepts(limits, c)
    requires c.identity in registrations && registrations[c.identity].activeWriters == {}
    requires Run(c, events).Some?
    requires AllEncodable(c.codec, Run(c, events).value.wire, c.maxFrameSize)
    requires arrived <= EncodeAll(c.codec, Run(c, events).value.wire, c.maxFrameSize)
    ensures var s := Run(c, events).value;
            var r := Handle(c.codec, limits, registrations, arrived).reception;
            var complete := arrived == EncodeAll(c.codec, s.wire, c.maxFrameSize) && Ended(s.wire);
            && r.delivered <= Contents(s.enqueued)
            && r.inputClosed == (if complete then 1 else 0)
            && (complete ==> r.delivered == Sent(s.wire))
            && (r.failure.None? <==> complete)
            && (complete ==> forall call :: call in s.beforeClose ==>
                  && call in s.position && s.position[call] < |s.enqueued| && s.position[call] < |r.delivered|
                  && s.enqueued[s.position[call]] == Queued(r.delivered[s.position[call]]))
  {
    hide Run, Handle, Sent, Contents, EncodeAll, UnfinishedFrame;
    var s := Run(c, events).value;
    WireIsShaped(c, events);
    SentIsPrefixOfEnqueued(c, events);
    EncodingIgnoresLimit(c.codec, s.wire, c.maxFrameSize, limits.maxFrameSize);
    var n, tail := PrefixOfEncoded(c.codec, limits.maxFrameSize, s.wire, arrived);
    HandleFrames(c, limits, registrations, s.wire[..n], tail);
    SentPrefix(s.wire, n);
    if n < |s.wire| {
      assert !Ended(s.wire[..n]);
      assert arrived != EncodeAll(c.codec, s.wire, c.maxFrameSize) by {
        ShorterPrefix(c, s.wire, n, tail, limits.maxFrameSize);
      }
    } else {
      assert s.wire[..n] == s.wire;
      if Ended(s.wire) {
        EndOfStreamIsComplete(c, events);
      }
    }
  }

  lemma ShorterPrefix(c: Config, wire: seq<Frame>, n: nat, tail: seq<Byte>, maxFrameSize: nat)
    requires AllEncodable(c.codec, wire, maxFrameSize) && n < |wire|
    requires tail < Encoding(c.codec, wire[n], maxFrameSize)
    ensures |EncodeAll(c.codec, wire[..n], maxFrameSize) + tail| < |EncodeAll(c.codec, wire, maxFrameSize)|
  {
    EncodeAllConcat(c.codec, maxFrameSize, wire[..n], wire[n..]);
    assert wire[..n] + wire[n..] == wire;
    assert wire[n..][1..] == wire[n + 1..];
  }
}
