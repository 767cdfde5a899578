/**
 The length-prefixed frame protocol of the data plane (runtime/protocol.py): encoding, the
 incremental decoder and the stream reader.
 */
module Protocol {
  import opened Wrappers
  import opened Records
  import opened Sequences

  newtype Byte = b: int | 0 <= b < 256

  datatype FrameType = Hello | DataBatch | EndOfStream | Error | Heartbeat

  datatype ChannelIdentity = ChannelIdentity(jobId: string, upstreamTaskId: string, downstreamTaskId: string)

  /** A frame's JSON object, told apart as far as a receiver inspects it. */
  datatype Payload =
    | Empty
    | Identity(identity: ChannelIdentity)
    | Records(records: seq<Record>)
    | Sequence(sequence: int)
    | Diagnostic(code: string, message: string)
    | Other(text: string)

  datatype Frame = Frame(frameType: FrameType, payload: Payload)

  datatype ProtocolError =
    | InvalidLimit
    | FrameTooLarge
    | LengthOverflow
    | MalformedFrame
    | HandshakeRefused
    | ConnectionClosed

  /** JSON text in UTF-8, as far as the protocol relies on it. */
  datatype Codec = Codec(encode: Frame -> seq<Byte>, decode: seq<Byte> -> Option<Frame>) {
    ghost predicate RoundTrips() {
      forall f: Frame :: encode(f) != [] && decode(encode(f)) == Some(f)
    }
  }

  const LENGTH_PREFIX_SIZE: nat := 4
  const LENGTH_LIMIT: nat := 0x1_0000_0000
  const DEFAULT_MAX_FRAME_SIZE: nat := 8 * 1024 * 1024
  const DEFAULT_MAX_BATCH_RECORDS: nat := 1000

  // ----- the big-endian length prefix -----

  function PackLength(n: nat): (b: seq<Byte>)
    requires n < LENGTH_LIMIT
    ensures |b| == LENGTH_PREFIX_SIZE
  {
    [(n / 0x100_0000) as Byte, (n / 0x1_0000 % 0x100) as Byte, (n / 0x100 % 0x100) as Byte, (n % 0x100) as Byte]
  }

  /** The number whose bytes these are, most significant first. */
  function BigEndian(b0: Byte, b1: Byte, b2: Byte, b3: Byte): nat {
    ((b0 as nat * 256 + b1 as nat) * 256 + b2 as nat) * 256 + b3 as nat
  }

  function UnpackLength(b: seq<Byte>): (n: nat)
    requires |b| == LENGTH_PREFIX_SIZE
    ensures n < LENGTH_LIMIT
  {
    b[0] as nat * 0x100_0000 + b[1] as nat * 0x1_0000 + b[2] as nat * 0x100 + b[3] as nat
  }

  /** The prefix is inverted for every length that fits it, and no two lengths share a prefix. */
  lemma LengthRoundTrip(n: nat)
    requires n < LENGTH_LIMIT
    ensures UnpackLength(PackLength(n)) == n
    ensures var b := PackLength(n); BigEndian(b[0], b[1], b[2], b[3]) == n
  {
    assert n / 0x1_0000 == (n / 0x100_0000) * 0x100 + n / 0x1_0000 % 0x100;
    assert n / 0x100 == (n / 0x1_0000) * 0x100 + n / 0x100 % 0x100;
  }

  // ----- whole frames -----

  /** The frames that a sender may write: their bodies fit the size limit and the prefix. */
  predicate Encodable(codec: Codec, frame: Frame, maxFrameSize: int) {
    |codec.encode(frame)| <= maxFrameSize && |codec.encode(frame)| < LENGTH_LIMIT && 0 < maxFrameSize
  }

  function EncodeFrame(codec: Codec, frame: Frame, maxFrameSize: int): (r: Result<seq<Byte>, ProtocolError>)
    ensures r.Ok? <==> Encodable(codec, frame, maxFrameSize)
    ensures r.Err? ==>
              r.error == if maxFrameSize <= 0 then InvalidLimit
                         else if |codec.encode(frame)| > maxFrameSize then FrameTooLarge else LengthOverflow
    ensures r.Ok? ==>
              && |r.value| == LENGTH_PREFIX_SIZE + |codec.encode(frame)|
              && BigEndian(r.value[0], r.value[1], r.value[2], r.value[3]) == |codec.encode(frame)|
              && r.value[LENGTH_PREFIX_SIZE..] == codec.encode(frame)
  {
    if maxFrameSize <= 0 then Err(InvalidLimit)
    else
      var body := codec.encode(frame);
      if |body| > maxFrameSize then Err(FrameTooLarge)
      else if |body| >= LENGTH_LIMIT then Err(LengthOverflow)
      else
        LengthRoundTrip(|body|);
        var bytes := PackLength(|body|) + body;
        assert bytes[..LENGTH_PREFIX_SIZE] == PackLength(|body|);
        Ok(bytes)
  }

  function DecodeFrameBody(codec: Codec, body: seq<Byte>, maxFrameSize: int): Result<Frame, ProtocolError> {
    if body == [] then Err(MalformedFrame)
    else if |body| > maxFrameSize then Err(FrameTooLarge)
    else
      match codec.decode(body)
      case None => Err(MalformedFrame)
      case Some(frame) => Ok(frame)
  }

  function DataBatchFrame(records: seq<Record>, maxBatchRecords: int): Result<Frame, ProtocolError> {
    if records == [] || |records| > maxBatchRecords then Err(MalformedFrame)
    else Ok(Frame(DataBatch, Records(records)))
  }

  function RecordsFromDataBatch(frame: Frame, maxBatchRecords: int): Result<seq<Record>, ProtocolError> {
    if frame.frameType != DataBatch || !frame.payload.Records? then Err(MalformedFrame)
    else if frame.payload.records == [] || |frame.payload.records| > maxBatchRecords then Err(MalformedFrame)
    else Ok(frame.payload.records)
  }

  ghost function Encoding(codec: Codec, frame: Frame, maxFrameSize: int): seq<Byte>
    requires Encodable(codec, frame, maxFrameSize)
  {
    EncodeFrame(codec, frame, maxFrameSize).value
  }

  ghost predicate AllEncodable(codec: Codec, frames: seq<Frame>, maxFrameSize: int) {
    forall i :: 0 <= i < |frames| ==> Encodable(codec, frames[i], maxFrameSize)
  }

  ghost function EncodeAll(codec: Codec, frames: seq<Frame>, maxFrameSize: int): seq<Byte>
    requires AllEncodable(codec, frames, maxFrameSize)
  {
    if frames == [] then []
    else Encoding(codec, frames[0], maxFrameSize) + EncodeAll(codec, frames[1..], maxFrameSize)
  }

  /** Bytes that do not complete a frame: nothing, or a proper prefix of some frame's encoding. */
  ghost predicate UnfinishedFrame(codec: Codec, tail: seq<Byte>, maxFrameSize: int) {
    tail == [] || exists f: Frame ::
      && Encodable(codec, f, maxFrameSize)
      && tail < Encoding(codec, f, maxFrameSize)
  }

  // ----- the incremental decoder -----

  /** What one round of the decoder's loop makes of its buffer. */
  datatype Round =
    | NeedMore
    | Decoded(frame: Frame, rest: seq<Byte>)
    | Bad(error: ProtocolError, rest: seq<Byte>)

  function DecodeRound(codec: Codec, maxFrameSize: int, buffer: seq<Byte>): (r: Round)
    ensures r.Decoded? ==> |r.rest| < |buffer| && r.rest == buffer[|buffer| - |r.rest|..]
  {
    if |buffer| < LENGTH_PREFIX_SIZE then NeedMore
    else
      var bodySize := UnpackLength(buffer[..LENGTH_PREFIX_SIZE]);
      if bodySize == 0 then Bad(MalformedFrame, [])
      else if bodySize > maxFrameSize then Bad(FrameTooLarge, [])
      else
        var frameSize := LENGTH_PREFIX_SIZE + bodySize;
        if |buffer| < frameSize then NeedMore
        else
          match DecodeFrameBody(codec, buffer[LENGTH_PREFIX_SIZE..frameSize], maxFrameSize)
          case Ok(frame) => Decoded(frame, buffer[frameSize..])
          case Err(error) => Bad(error, buffer[frameSize..])
  }

  /** Everything the loop takes out of a buffer. */
  datatype Drained = Drained(frames: seq<Frame>, rest: seq<Byte>, error: Option<ProtocolError>)

  function Drain(codec: Codec, maxFrameSize: int, buffer: seq<Byte>): Drained
    decreases |buffer|
  {
    match DecodeRound(codec, maxFrameSize, buffer)
    case NeedMore => Drained([], buffer, None)
    case Bad(error, rest) => Drained([], rest, Some(error))
    case Decoded(frame, rest) =>
      var more := Drain(codec, maxFrameSize, rest);
      Drained([frame] + more.frames, more.rest, more.error)
  }

  class IncrementalFrameDecoder {
    const codec: Codec
    const maxFrameSize: int
    var buffer: seq<Byte>

    constructor (codec: Codec, maxFrameSize: int)
      requires maxFrameSize > 0
      ensures this.codec == codec && this.maxFrameSize == maxFrameSize && buffer == []
    {
      this.codec := codec;
      this.maxFrameSize := maxFrameSize;
      buffer := [];
    }

    /** Appends bytes and returns every frame they complete; frames before a bad one are dropped. */
    method FeedData(data: seq<Byte>) returns (r: Result<seq<Frame>, ProtocolError>)
      modifies this
      ensures var d := Drain(codec, maxFrameSize, old(buffer) + data);
              buffer == d.rest && r == (if d.error.None? then Ok(d.frames) else Err(d.error.value))
    {
      hide Drain, UnpackLength, DecodeFrameBody;
      buffer := buffer + data;
      ghost var whole := Drain(codec, maxFrameSize, buffer);
      var frames: seq<Frame> := [];
      while |buffer| >= LENGTH_PREFIX_SIZE
        invariant var d := Drain(codec, maxFrameSize, buffer);
                  whole == Drained(frames + d.frames, d.rest, d.error)
        decreases |buffer|
      {
        var bodySize := UnpackLength(buffer[..LENGTH_PREFIX_SIZE]);
        DrainUnfolds(codec, maxFrameSize, buffer);
        if bodySize == 0 {
          buffer := [];
          return Err(MalformedFrame);
        }
        if bodySize > maxFrameSize {
          buffer := [];
          return Err(FrameTooLarge);
        }
        var frameSize := LENGTH_PREFIX_SIZE + bodySize;
        if |buffer| < frameSize {
          break;
        }
        var body := buffer[LENGTH_PREFIX_SIZE..frameSize];
        buffer := buffer[frameSize..];
        var decoded := DecodeFrameBody(codec, body, maxFrameSize);
        match decoded {
          case Err(error) => return Err(error);
          case Ok(frame) =>
            ConcatAssociative(frames, [frame], Drain(codec, maxFrameSize, buffer).frames);
            frames := frames + [frame];
        }
      }
      DrainUnfolds(codec, maxFrameSize, buffer);
      assert frames + [] == frames;
      return Ok(frames);
    }
  }

  /** One round of the loop, in terms of what is left to drain after it. */
  lemma DrainUnfolds(codec: Codec, maxFrameSize: int, buffer: seq<Byte>)
    ensures var d := Drain(codec, maxFrameSize, buffer);
            if |buffer| < LENGTH_PREFIX_SIZE then d == Drained([], buffer, None)
            else
              var bodySize := UnpackLength(buffer[..LENGTH_PREFIX_SIZE]);
              if bodySize == 0 then d == Drained([], [], Some(MalformedFrame))
              else if bodySize > maxFrameSize then d == Drained([], [], Some(FrameTooLarge))
              else if |buffer| < LENGTH_PREFIX_SIZE + bodySize then d == Drained([], buffer, None)
              else
                var frameSize := LENGTH_PREFIX_SIZE + bodySize;
                match DecodeFrameBody(codec, buffer[LENGTH_PREFIX_SIZE..frameSize], maxFrameSize)
                case Err(error) => d == Drained([], buffer[frameSize..], Some(error))
                case Ok(frame) =>
                  var more := Drain(codec, maxFrameSize, buffer[frameSize..]);
                  d == Drained([frame] + more.frames, more.rest, more.error)
  {
    hide UnpackLength, DecodeFrameBody;
  }

  /**
   A round in terms of the bytes: it waits for the prefix and for the body that this announces; an empty or undecodable
   body is malformed, an oversized one refused; only after an undecodable body are the bytes behind it kept.
   */
  lemma RoundsAre(codec: Codec, maxFrameSize: int, buffer: seq<Byte>)
    ensures var round := DecodeRound(codec, maxFrameSize, buffer);
            if |buffer| < 4 then round == NeedMore
            else
              var n := BigEndian(buffer[0], buffer[1], buffer[2], buffer[3]);
              if n == 0 then round == Bad(MalformedFrame, [])
              else if n > maxFrameSize then round == Bad(FrameTooLarge, [])
              else if |buffer| < 4 + n then round == NeedMore
              else
                match codec.decode(buffer[4..4 + n])
                case None => round == Bad(MalformedFrame, buffer[4 + n..])
                case Some(frame) => round == Decoded(frame, buffer[4 + n..])
  {
  }

  /** Later bytes never change what a round has already decoded. */
  lemma DecodeRoundMonotone(codec: Codec, maxFrameSize: int, a: seq<Byte>, b: seq<Byte>)
    requires DecodeRound(codec, maxFrameSize, a).Decoded?
    ensures var r := DecodeRound(codec, maxFrameSize, a);
            DecodeRound(codec, maxFrameSize, a + b) == Decoded(r.frame, r.rest + b)
  {
    assert (a + b)[..LENGTH_PREFIX_SIZE] == a[..LENGTH_PREFIX_SIZE];
    var frameSize := LENGTH_PREFIX_SIZE + UnpackLength(a[..LENGTH_PREFIX_SIZE]);
    assert (a + b)[LENGTH_PREFIX_SIZE..frameSize] == a[LENGTH_PREFIX_SIZE..frameSize];
    assert (a + b)[frameSize..] == a[frameSize..] + b;
  }

  /** Nor do they repair what a round has rejected. */
  lemma BadRoundMonotone(codec: Codec, maxFrameSize: int, a: seq<Byte>, b: seq<Byte>)
    requires DecodeRound(codec, maxFrameSize, a).Bad?
    ensures DecodeRound(codec, maxFrameSize, a + b).Bad?
  {
    assert (a + b)[..LENGTH_PREFIX_SIZE] == a[..LENGTH_PREFIX_SIZE];
    var frameSize := LENGTH_PREFIX_SIZE + UnpackLength(a[..LENGTH_PREFIX_SIZE]);
    if |a| >= frameSize {
      assert (a + b)[LENGTH_PREFIX_SIZE..frameSize] == a[LENGTH_PREFIX_SIZE..frameSize];
    }
  }

  /** Draining in two portions is draining at once, as long as the first portion is well formed. */
  lemma {:induction false} DrainInTwo(codec: Codec, maxFrameSize: int, a: seq<Byte>, b: seq<Byte>)
    requires Drain(codec, maxFrameSize, a).error.None?
    ensures var first := Drain(codec, maxFrameSize, a);
            var second := Drain(codec, maxFrameSize, first.rest + b);
            var whole := Drain(codec, maxFrameSize, a + b);
            && whole.frames == first.frames + second.frames
            && whole.rest == second.rest
            && whole.error == second.error
    decreases |a|
  {
    match DecodeRound(codec, maxFrameSize, a) {
      case NeedMore =>
        assert [] + Drain(codec, maxFrameSize, a + b).frames == Drain(codec, maxFrameSize, a + b).frames;
      case Decoded(frame, rest) =>
        DecodeRoundMonotone(codec, maxFrameSize, a, b);
        DrainInTwo(codec, maxFrameSize, rest, b);
        var one := Drain(codec, maxFrameSize, rest).frames;
        var two := Drain(codec, maxFrameSize, Drain(codec, maxFrameSize, rest).rest + b).frames;
        assert Drain(codec, maxFrameSize, a).frames == [frame] + one;
        assert Drain(codec, maxFrameSize, a + b).frames == [frame] + (one + two);
        ConcatAssociative([frame], one, two);
    }
  }

  /** The decoder after a sequence of feeds, with all frames it returned; None once a feed has raised. */
  ghost function FeedAll(codec: Codec, maxFrameSize: int, chunks: seq<seq<Byte>>): Option<(seq<Frame>, seq<Byte>)> {
    if chunks == [] then Some(([], []))
    else
      match FeedAll(codec, maxFrameSize, chunks[..|chunks| - 1])
      case None => None
      case Some((frames, buffer)) =>
        var d := Drain(codec, maxFrameSize, buffer + chunks[|chunks| - 1]);
        if d.error.None? then Some((frames + d.frames, d.rest)) else None
  }

  /** A well-formed prefix of a well-formed stream is well formed. */
  lemma {:induction false} DrainPrefix(codec: Codec, maxFrameSize: int, a: seq<Byte>, b: seq<Byte>)
    requires Drain(codec, maxFrameSize, a + b).error.None?
    ensures Drain(codec, maxFrameSize, a).error.None?
    decreases |a|
  {
    match DecodeRound(codec, maxFrameSize, a)
    case NeedMore =>
    case Decoded(frame, rest) =>
      DecodeRoundMonotone(codec, maxFrameSize, a, b);
      DrainPrefix(codec, maxFrameSize, rest, b);
    case Bad(error, rest) =>
      BadRoundMonotone(codec, maxFrameSize, a, b);
  }

  /** Chunking independence: a well-formed stream yields the same frames and tail however it is cut. */
  lemma {:induction false} ChunkingIndependence(codec: Codec, maxFrameSize: int, chunks: seq<seq<Byte>>)
    requires Drain(codec, maxFrameSize, Flatten(chunks)).error.None?
    ensures var d := Drain(codec, maxFrameSize, Flatten(chunks));
            FeedAll(codec, maxFrameSize, chunks) == Some((d.frames, d.rest))
  {
    if chunks != [] {
      var init, last := chunks[..|chunks| - 1], chunks[|chunks| - 1];
      DrainPrefix(codec, maxFrameSize, Flatten(init), last);
      ChunkingIndependence(codec, maxFrameSize, init);
      DrainInTwo(codec, maxFrameSize, Flatten(init), last);
    }
  }

  // ----- round trip -----

  /** One encoded frame at the front of a buffer is decoded exactly, leaving exactly what follows it. */
  lemma DecodeEncoded(codec: Codec, maxFrameSize: int, frame: Frame, rest: seq<Byte>)
    requires codec.RoundTrips() && Encodable(codec, frame, maxFrameSize)
    ensures DecodeRound(codec, maxFrameSize, Encoding(codec, frame, maxFrameSize) + rest)
         == Decoded(frame, rest)
  {
    var body := codec.encode(frame);
    var bytes := PackLength(|body|) + body + rest;
    LengthRoundTrip(|body|);
    assert bytes[..LENGTH_PREFIX_SIZE] == PackLength(|body|);
    assert bytes[LENGTH_PREFIX_SIZE..LENGTH_PREFIX_SIZE + |body|] == body;
    assert bytes[LENGTH_PREFIX_SIZE + |body|..] == rest;
  }

  /** An unfinished frame makes the decoder wait; it is neither decoded nor rejected. */
  lemma UnfinishedWaits(codec: Codec, maxFrameSize: int, tail: seq<Byte>)
    requires codec.RoundTrips() && UnfinishedFrame(codec, tail, maxFrameSize)
    ensures DecodeRound(codec, maxFrameSize, tail) == NeedMore
  {
    if |tail| >= LENGTH_PREFIX_SIZE {
      var frame: Frame :|
        Encodable(codec, frame, maxFrameSize) && tail < Encoding(codec, frame, maxFrameSize);
      var body := codec.encode(frame);
      LengthRoundTrip(|body|);
      assert tail[..LENGTH_PREFIX_SIZE] == PackLength(|body|);
    }
  }

  /** Draining encoded frames followed by an unfinished one gives back the frames and keeps the tail. */
  lemma {:induction false} DrainRoundTrip(codec: Codec, maxFrameSize: int, frames: seq<Frame>, tail: seq<Byte>)
    requires codec.RoundTrips()
    requires AllEncodable(codec, frames, maxFrameSize)
    requires UnfinishedFrame(codec, tail, maxFrameSize)
    ensures Drain(codec, maxFrameSize, EncodeAll(codec, frames, maxFrameSize) + tail) == Drained(frames, tail, None)
  {
    hide DecodeRound, Encoding, Encodable, UnfinishedFrame;
    if frames == [] {
      UnfinishedWaits(codec, maxFrameSize, tail);
      assert EncodeAll(codec, frames, maxFrameSize) + tail == tail;
    } else {
      var more := EncodeAll(codec, frames[1..], maxFrameSize) + tail;
      DecodeEncoded(codec, maxFrameSize, frames[0], more);
      assert EncodeAll(codec, frames, maxFrameSize) + tail
          == Encoding(codec, frames[0], maxFrameSize) + more;
      DrainRoundTrip(codec, maxFrameSize, frames[1..], tail);
    }
  }

  /** Any way of cutting the bytes into feeds returns exactly the frames and leaves exactly the tail. */
  lemma ChunkedRoundTrip(codec: Codec, maxFrameSize: int, frames: seq<Frame>, tail: seq<Byte>, chunks: seq<seq<Byte>>)
    requires codec.RoundTrips()
    requires AllEncodable(codec, frames, maxFrameSize)
    requires UnfinishedFrame(codec, tail, maxFrameSize)
    requires Flatten(chunks) == EncodeAll(codec, frames, maxFrameSize) + tail
    ensures FeedAll(codec, maxFrameSize, chunks) == Some((frames, tail))
  {
    DrainRoundTrip(codec, maxFrameSize, frames, tail);
    ChunkingIndependence(codec, maxFrameSize, chunks);
  }

  // ----- the stream reader -----

  /** A connection whose remaining bytes are known: reading past them means the peer has closed. */
  class StreamReader {
    var data: seq<Byte>

    constructor (data: seq<Byte>)
      ensures this.data == data
    {
      this.data := data;
    }

    /** None is asyncio's IncompleteReadError, which consumes what was left. */
    method ReadExactly(n: nat) returns (r: Option<seq<Byte>>)
      modifies this
      ensures |old(data)| < n ==> r == None && data == []
      ensures |old(data)| >= n ==> r == Some(old(data)[..n]) && data == old(data)[n..]
    {
      if |data| < n {
        data := [];
        return None;
      }
      r := Some(data[..n]);
      data := data[n..];
    }
  }

  /** What read_frame returns on a connection that holds these bytes, and what it leaves. */
  function ReadOutcome(codec: Codec, maxFrameSize: int, bytes: seq<Byte>): (Result<Frame, ProtocolError>, seq<Byte>) {
    match DecodeRound(codec, maxFrameSize, bytes)
    case NeedMore => (Err(ConnectionClosed), [])
    case Decoded(frame, rest) => (Ok(frame), rest)
    case Bad(error, rest) =>
      var bodySize := UnpackLength(bytes[..LENGTH_PREFIX_SIZE]);
      (Err(error), if bodySize == 0 || bodySize > maxFrameSize then bytes[LENGTH_PREFIX_SIZE..] else rest)
  }

  method ReadFrame(codec: Codec, reader: StreamReader, maxFrameSize: int) returns (r: Result<Frame, ProtocolError>)
    modifies reader
    ensures (r, reader.data) == ReadOutcome(codec, maxFrameSize, old(reader.data))
  {
    ghost var bytes := reader.data;
    var prefix := reader.ReadExactly(LENGTH_PREFIX_SIZE);
    if prefix.None? {
      return Err(ConnectionClosed);
    }
    var bodySize := UnpackLength(prefix.value);
    if bodySize == 0 {
      return Err(MalformedFrame);
    }
    if bodySize > maxFrameSize {
      return Err(FrameTooLarge);
    }
    var body := reader.ReadExactly(bodySize);
    if body.None? {
      return Err(ConnectionClosed);
    }
    assert body.value == bytes[LENGTH_PREFIX_SIZE..LENGTH_PREFIX_SIZE + bodySize];
    assert reader.data == bytes[LENGTH_PREFIX_SIZE + bodySize..];
    r := DecodeFrameBody(codec, body.value, maxFrameSize);
  }

  /** All frames that repeated reads return, and the error that ends them. */
  ghost function ReadAll(codec: Codec, maxFrameSize: int, bytes: seq<Byte>): (r: (seq<Frame>, ProtocolError))
    decreases |bytes|
  {
    match ReadOutcome(codec, maxFrameSize, bytes)
    case (Err(error), _) => ([], error)
    case (Ok(frame), rest) =>
      var more := ReadAll(codec, maxFrameSize, rest);
      ([frame] + more.0, more.1)
  }

  /**
   On every byte stream, well formed or not, the reader returns the decoder's frames; it ends with the
   decoder's error, or with a closed connection where the decoder would wait for more.
   */
  lemma {:induction false} ReaderAgreesWithDecoder(codec: Codec, maxFrameSize: int, bytes: seq<Byte>)
    ensures var d := Drain(codec, maxFrameSize, bytes);
            ReadAll(codec, maxFrameSize, bytes) ==
            (d.frames, if d.error.None? then ConnectionClosed else d.error.value)
    decreases |bytes|
  {
    match DecodeRound(codec, maxFrameSize, bytes)
    case Decoded(frame, rest) => ReaderAgreesWithDecoder(codec, maxFrameSize, rest);
    case _ =>
  }

  lemma {:induction false} EncodeAllConcat(codec: Codec, maxFrameSize: int, a: seq<Frame>, b: seq<Frame>)
    requires AllEncodable(codec, a, maxFrameSize) && AllEncodable(codec, b, maxFrameSize)
    ensures AllEncodable(codec, a + b, maxFrameSize)
    ensures EncodeAll(codec, a + b, maxFrameSize)
         == EncodeAll(codec, a, maxFrameSize) + EncodeAll(codec, b, maxFrameSize)
  {
    hide Encodable, Encoding;
    if a == [] {
      assert a + b == b;
    } else {
      assert (a + b)[1..] == a[1..] + b && (a + b)[0] == a[0];
      ConcatAssociative(Encoding(codec, a[0], maxFrameSize), EncodeAll(codec, a[1..], maxFrameSize),
                        EncodeAll(codec, b, maxFrameSize));
      EncodeAllConcat(codec, maxFrameSize, a[1..], b);
    }
  }

  /** Every prefix of encoded frames is some of the frames followed by an unfinished one, or all of them. */
  lemma {:induction false} PrefixOfEncoded(codec: Codec, maxFrameSize: int, frames: seq<Frame>, bytes: seq<Byte>)
    returns (n: nat, tail: seq<Byte>)
    requires AllEncodable(codec, frames, maxFrameSize)
    requires bytes <= EncodeAll(codec, frames, maxFrameSize)
    ensures n <= |frames| && bytes == EncodeAll(codec, frames[..n], maxFrameSize) + tail
    ensures UnfinishedFrame(codec, tail, maxFrameSize)
    ensures n == |frames| ==> bytes == EncodeAll(codec, frames, maxFrameSize)
    ensures n < |frames| ==> tail < Encoding(codec, frames[n], maxFrameSize)
  {
    if frames == [] {
      n, tail := 0, [];
    } else {
      var first := Encoding(codec, frames[0], maxFrameSize);
      if |bytes| < |first| {
        n, tail := 0, bytes;
        assert bytes == (first + EncodeAll(codec, frames[1..], maxFrameSize))[..|bytes|];
        assert bytes == first[..|bytes|];
      } else {
        hide Encoding, Encodable, UnfinishedFrame;
        var rest := bytes[|first|..];
        assert bytes == first + rest && rest <= EncodeAll(codec, frames[1..], maxFrameSize);
        n, tail := PrefixOfEncoded(codec, maxFrameSize, frames[1..], rest);
        EncodeAllFront(codec, maxFrameSize, frames, n);
        ConcatAssociative(first, EncodeAll(codec, frames[1..][..n], maxFrameSize), tail);
        n := n + 1;
      }
    }
  }

  lemma EncodeAllFront(codec: Codec, maxFrameSize: int, frames: seq<Frame>, n: nat)
    requires frames != [] && AllEncodable(codec, frames, maxFrameSize) && n <= |frames| - 1
    ensures EncodeAll(codec, frames[..n + 1], maxFrameSize)
         == Encoding(codec, frames[0], maxFrameSize) + EncodeAll(codec, frames[1..][..n], maxFrameSize)
  {
    hide Encoding, Encodable;
    assert frames[..n + 1][1..] == frames[1..][..n];
  }
}
