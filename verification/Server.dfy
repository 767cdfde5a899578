/**
 The receiving end of the data plane (runtime/server.py): the handshake, the read loop, and what the
 consumer of a channel is told.
 */
module Server {
  import opened Wrappers
  import opened Records
  import opened Sequences
  import opened Protocol

  datatype ConnectionError =
    | Protocol(cause: ProtocolError)
    | UnknownChannel
    | AlreadyConnected
    | HeartbeatOutOfOrder
    | PayloadAfterEnd
    | RemoteError
    | UnexpectedFrame

  /** What one connection tells its consumer: records in order, then a clean end or a failure. */
  datatype Reception = Reception(delivered: seq<Record>, inputClosed: nat, failure: Option<ConnectionError>)

  datatype Limits = Limits(maxFrameSize: nat, maxBatchRecords: nat)

  const DEFAULT_LIMITS := Limits(DEFAULT_MAX_FRAME_SIZE, DEFAULT_MAX_BATCH_RECORDS)

  /** The read loop on a given series of frames, which ends with `eof` if the loop outlives it. */
  function Receive(frames: seq<Frame>, eof: ProtocolError, heartbeat: int, maxBatchRecords: nat): Reception {
    if frames == [] then Reception([], 0, Some(Protocol(eof)))
    else
      var frame := frames[0];
      match frame.frameType
      case DataBatch =>
        (match RecordsFromDataBatch(frame, maxBatchRecords)
         case Err(error) => Reception([], 0, Some(Protocol(error)))
         case Ok(records) =>
           var more := Receive(frames[1..], eof, heartbeat, maxBatchRecords);
           more.(delivered := records + more.delivered))
      case Heartbeat =>
        if !frame.payload.Sequence? || frame.payload.sequence <= heartbeat
        then Reception([], 0, Some(HeartbeatOutOfOrder))
        else Receive(frames[1..], eof, frame.payload.sequence, maxBatchRecords)
      case EndOfStream =>
        if frame.payload != Empty then Reception([], 0, Some(PayloadAfterEnd)) else Reception([], 1, None)
      case Error => Reception([], 0, Some(RemoteError))
      case Hello => Reception([], 0, Some(UnexpectedFrame))
  }

  /** The identity that a first frame declares. */
  function IdentityFromHello(frame: Frame): Result<ChannelIdentity, ProtocolError> {
    if frame.frameType != Hello || !frame.payload.Identity? then Err(HandshakeRefused)
    else
      var id := frame.payload.identity;
      if id.jobId == "" || id.upstreamTaskId == "" || id.downstreamTaskId == "" then Err(HandshakeRefused)
      else Ok(id)
  }

  datatype Registration = Registration(consumer: nat, activeWriters: set<nat>)

  /**
   The outcome of a whole connection: the registered channel it was dispatched to, if any; what its consumer was
   told; and whether the peer was written an ERROR frame instead.
   */
  datatype Connection = Connection(channel: Option<ChannelIdentity>, reception: Reception, errorWritten: bool)

  function Turned(error: ConnectionError): Connection {
    Connection(None, Reception([], 0, Some(error)), true)
  }

  ghost function Handle(
    codec: Codec, limits: Limits, registrations: map<ChannelIdentity, Registration>, bytes: seq<Byte>
  ): Connection {
    match ReadOutcome(codec, limits.maxFrameSize, bytes)
    case (Err(error), _) => Turned(Protocol(error))
    case (Ok(hello), rest) =>
      match IdentityFromHello(hello)
      case Err(error) => Turned(Protocol(error))
      case Ok(identity) =>
        if identity !in registrations then Turned(UnknownChannel)
        else if registrations[identity].activeWriters != {}
        then Connection(Some(identity), Reception([], 0, Some(AlreadyConnected)), false)
        else
          var (frames, end) := ReadAll(codec, limits.maxFrameSize, rest);
          Connection(Some(identity), Receive(frames, end, -1, limits.maxBatchRecords), false)
  }

  /** The read loop on some bytes, in terms of the first frame that is read from them. */
  lemma ReceiveFront(codec: Codec, maxFrameSize: nat, data: seq<Byte>, heartbeat: int, maxBatchRecords: nat)
    ensures var (frames, end) := ReadAll(codec, maxFrameSize, data);
            var whole := Receive(frames, end, heartbeat, maxBatchRecords);
            match ReadOutcome(codec, maxFrameSize, data)
            case (Err(error), _) => whole == Reception([], 0, Some(Protocol(error)))
            case (Ok(frame), rest) =>
              var (more, end') := ReadAll(codec, maxFrameSize, rest);
              |rest| < |data| &&
              match frame.frameType
              case DataBatch =>
                (match RecordsFromDataBatch(frame, maxBatchRecords)
                 case Err(error) => whole == Reception([], 0, Some(Protocol(error)))
                 case Ok(records) =>
                   var later := Receive(more, end', heartbeat, maxBatchRecords);
                   whole == later.(delivered := records + later.delivered))
              case Heartbeat =>
                whole == (if !frame.payload.Sequence? || frame.payload.sequence <= heartbeat
                          then Reception([], 0, Some(HeartbeatOutOfOrder))
                          else Receive(more, end', frame.payload.sequence, maxBatchRecords))
              case EndOfStream =>
                whole == (if frame.payload != Empty then Reception([], 0, Some(PayloadAfterEnd)) else Reception([], 1, None))
              case Error => whole == Reception([], 0, Some(RemoteError))
              case Hello => whole == Reception([], 0, Some(UnexpectedFrame))
  {
    hide DecodeRound, RecordsFromDataBatch;
  }

  // ----- what the loop lets through -----

  /** A frame that the loop goes on after: a batch of a proper size, or a heartbeat with a higher number than any before. */
  ghost predicate Passes(frames: seq<Frame>, k: nat, heartbeat: int, maxBatchRecords: nat)
    requires k < |frames|
  {
    var frame := frames[k];
    || (frame.frameType == DataBatch && frame.payload.Records? && 0 < |frame.payload.records| <= maxBatchRecords)
    || (frame.frameType == Heartbeat && frame.payload.Sequence? && frame.payload.sequence > heartbeat
        && forall j :: 0 <= j < k && frames[j].frameType == Heartbeat && frames[j].payload.Sequence? ==>
             frames[j].payload.sequence < frame.payload.sequence)
  }

  function BatchRecords(frames: seq<Frame>): seq<Record> {
    if frames == [] then []
    else (if frames[0].frameType == DataBatch && frames[0].payload.Records? then frames[0].payload.records else [])
         + BatchRecords(frames[1..])
  }

  /** What the consumer hears at the frame that ends the loop. */
  ghost predicate EndsWith(r: Reception, frame: Frame) {
    match frame.frameType
    case DataBatch => r.inputClosed == 0 && r.failure == Some(Protocol(MalformedFrame))
    case Heartbeat => r.inputClosed == 0 && r.failure == Some(HeartbeatOutOfOrder)
    case EndOfStream =>
      if frame.payload == Empty then r.inputClosed == 1 && r.failure == None
      else r.inputClosed == 0 && r.failure == Some(PayloadAfterEnd)
    case Error => r.inputClosed == 0 && r.failure == Some(RemoteError)
    case Hello => r.inputClosed == 0 && r.failure == Some(UnexpectedFrame)
  }

  /**
   The loop delivers the records of all frames up to the first that does not pass, which decides how it ends; if all
   pass, it ends as the stream does.
   */
  lemma {:induction false} ReceiveIs(frames: seq<Frame>, eof: ProtocolError, heartbeat: int, maxBatchRecords: nat)
    returns (k: nat)
    ensures k <= |frames| && forall j :: 0 <= j < k ==> Passes(frames, j, heartbeat, maxBatchRecords)
    ensures k < |frames| ==> !Passes(frames, k, heartbeat, maxBatchRecords)
    ensures var r := Receive(frames, eof, heartbeat, maxBatchRecords);
            && r.delivered == BatchRecords(frames[..k])
            && if k < |frames| then EndsWith(r, frames[k]) else r.inputClosed == 0 && r.failure == Some(Protocol(eof))
  {
    if frames == [] || !Passes(frames, 0, heartbeat, maxBatchRecords) {
      k := 0;
    } else {
      var next := if frames[0].frameType == Heartbeat then frames[0].payload.sequence else heartbeat;
      var more := ReceiveIs(frames[1..], eof, next, maxBatchRecords);
      k := more + 1;
      forall j: nat | j < k ensures Passes(frames, j, heartbeat, maxBatchRecords) {
        if j > 0 {
          PassesLater(frames, j - 1, heartbeat, maxBatchRecords);
        }
      }
      if k < |frames| {
        PassesLater(frames, more, heartbeat, maxBatchRecords);
      }
      assert frames[..k][0] == frames[0] && frames[..k][1..] == frames[1..][..more];
    }
  }

  lemma PassesLater(frames: seq<Frame>, j: nat, heartbeat: int, maxBatchRecords: nat)
    requires j + 1 < |frames| && Passes(frames, 0, heartbeat, maxBatchRecords)
    ensures var next := if frames[0].frameType == Heartbeat then frames[0].payload.sequence else heartbeat;
            Passes(frames[1..], j, next, maxBatchRecords) <==> Passes(frames, j + 1, heartbeat, maxBatchRecords)
  {
    forall i | 0 <= i < j ensures frames[1..][i] == frames[i + 1] {
    }
    forall i | 0 < i < j + 1 ensures frames[i] == frames[1..][i - 1] {
    }
  }

  /** The handshake: exactly a HELLO with three nonempty names is accepted, and declares them. */
  lemma HandshakeIs(frame: Frame, id: ChannelIdentity)
    ensures IdentityFromHello(frame) == Ok(id) <==>
            frame == Frame(Hello, Identity(id)) && id.jobId != "" && id.upstreamTaskId != "" && id.downstreamTaskId != ""
    ensures IdentityFromHello(frame).Err? ==> IdentityFromHello(frame).error == HandshakeRefused
  {
  }

  /** A connection that is not dispatched delivers nothing, is told of an error and nobody else is; any other is. */
  lemma OnlyStrangersAreAnswered(codec: Codec, limits: Limits, registrations: map<ChannelIdentity, Registration>, bytes: seq<Byte>)
    ensures var c := Handle(codec, limits, registrations, bytes);
            && (c.errorWritten <==> c.channel == None)
            && (c.channel == None ==> c.reception.delivered == [] && c.reception.inputClosed == 0 && c.reception.failure.Some?)
            && (c.channel.Some? ==> c.channel.value in registrations
                                    && (registrations[c.channel.value].activeWriters != {} ==>
                                          c.reception == Reception([], 0, Some(AlreadyConnected))))
  {
    hide Receive, ReadAll, ReadOutcome;
  }

  lemma RemovingAStranger(registrations: map<ChannelIdentity, Registration>, id: ChannelIdentity, writer: nat)
    requires id in registrations && writer !in registrations[id].activeWriters
    ensures var r := registrations[id];
            registrations[id := r.(activeWriters := r.activeWriters - {writer})] == registrations
  {
    assert registrations[id].activeWriters - {writer} == registrations[id].activeWriters;
  }

  datatype RegistrationError = NotRunning | Duplicate | AlreadyRegistered

  class DataPlaneServer {
    const codec: Codec
    const limits: Limits
    var running: bool
    var registrations: map<ChannelIdentity, Registration>
    var connectionsOpened: nat
    var connectionsClosed: nat
    var connectionErrors: nat
    var batchesReceived: nat
    var recordsReceived: nat

    constructor (codec: Codec)
      ensures this.codec == codec && limits == DEFAULT_LIMITS && !running && registrations == map[]
    {
      this.codec, limits, running := codec, DEFAULT_LIMITS, false;
      registrations := map[];
      connectionsOpened, connectionsClosed, connectionErrors := 0, 0, 0;
      batchesReceived, recordsReceived := 0, 0;
    }

    method Start()
      modifies this`running
      ensures running
    {
      running := true;
    }

    /** Stops listening, forgets every registration and closes the writers of all. */
    method Close() returns (closed: set<nat>)
      modifies this`running, this`registrations
      ensures !running && registrations == map[]
      ensures forall w :: w in closed <==> exists id :: id in old(registrations) && w in old(registrations)[id].activeWriters
    {
      running := false;
      closed := set id, w | id in registrations && w in registrations[id].activeWriters :: w;
      registrations := map[];
    }

    /** Registers all of a task's channels, or none: a server that is not running, a duplicate or a taken channel refuses. */
    method Register(identities: seq<ChannelIdentity>, consumer: nat) returns (refusal: Option<RegistrationError>)
      modifies this`registrations
      ensures refusal == None <==> running && NoDuplicates(identities) && forall id :: id in identities ==> id !in old(registrations)
      ensures refusal == Some(NotRunning) <==> !running
      ensures refusal == Some(Duplicate) <==> running && !NoDuplicates(identities)
      ensures refusal.Some? ==> registrations == old(registrations)
      ensures refusal.None? ==> registrations == old(registrations)
                                  + map id | id in identities :: Registration(consumer, {})
    {
      if !running {
        return Some(NotRunning);
      }
      if !NoDuplicates(identities) {
        return Some(Duplicate);
      }
      for i := 0 to |identities|
        invariant forall k :: 0 <= k < i ==> identities[k] !in registrations
      {
        if identities[i] in registrations {
          return Some(AlreadyRegistered);
        }
      }
      AddAll(identities, consumer);
      return None;
    }

    method AddAll(identities: seq<ChannelIdentity>, consumer: nat)
      modifies this`registrations
      ensures registrations == old(registrations) + map id | id in identities :: Registration(consumer, {})
    {
      for i := 0 to |identities|
        invariant registrations == old(registrations) + map id | id in identities[..i] :: Registration(consumer, {})
      {
        registrations := registrations[identities[i] := Registration(consumer, {})];
      }
      assert identities[..|identities|] == identities;
    }

    /** Removes those of the channels that still belong to this consumer, and no others, and closes their writers. */
    method Unregister(identities: seq<ChannelIdentity>, consumer: nat) returns (closed: set<nat>)
      modifies this`registrations
      ensures registrations == map id | id in old(registrations)
                && !(id in identities && old(registrations)[id].consumer == consumer) :: old(registrations)[id]
      ensures forall w :: w in closed <==>
                exists id :: id in old(registrations) && id !in registrations && w in old(registrations)[id].activeWriters
    {
      closed := {};
      for i := 0 to |identities|
        invariant registrations == map id | id in old(registrations)
                    && !(id in identities[..i] && old(registrations)[id].consumer == consumer) :: old(registrations)[id]
        invariant forall w :: w in closed <==>
                    exists id :: id in old(registrations) && id !in registrations && w in old(registrations)[id].activeWriters
      {
        var id := identities[i];
        if id in registrations && registrations[id].consumer == consumer {
          closed := closed + registrations[id].activeWriters;
          registrations := registrations - {id};
        }
      }
      assert identities[..|identities|] == identities;
    }

    /** One connection from its first byte to its end; no other coroutine touches its channel meanwhile. */
    method HandleConnection(reader: StreamReader, writer: nat) returns (connection: Connection)
      modifies this, reader
      ensures connection == Handle(codec, limits, old(registrations), old(reader.data))
      ensures connectionErrors == old(connectionErrors) + if connection.reception.failure.Some? then 1 else 0
      ensures recordsReceived == old(recordsReceived) + |connection.reception.delivered|
      ensures connectionsClosed == old(connectionsClosed) + if connection.channel.Some? then 1 else 0
      ensures connectionsOpened == old(connectionsOpened)
                + if connection.channel.Some? && connection.channel.value in old(registrations)
                     && old(registrations)[connection.channel.value].activeWriters == {} then 1 else 0
      ensures (forall id :: id in old(registrations) ==> writer !in old(registrations)[id].activeWriters) ==>
                registrations == old(registrations)
    {
      hide Receive, ReadAll, ReadOutcome, IdentityFromHello;
      var first := ReadFrame(codec, reader, limits.maxFrameSize);
      if first.Err? {
        connectionErrors := connectionErrors + 1;
        return Turned(Protocol(first.error));
      }
      var declared := IdentityFromHello(first.value);
      if declared.Err? {
        connectionErrors := connectionErrors + 1;
        return Turned(Protocol(declared.error));
      }
      var identity := declared.value;
      if identity !in registrations {
        connectionErrors := connectionErrors + 1;
        return Turned(UnknownChannel);
      }
      var registration := registrations[identity];
      if registration.activeWriters != {} {
        connectionErrors, connectionsClosed := connectionErrors + 1, connectionsClosed + 1;
        registrations := registrations[identity := registration.(activeWriters := registration.activeWriters - {writer})];
        if writer !in registration.activeWriters {
          RemovingAStranger(old(registrations), identity, writer);
        }
        return Connection(Some(identity), Reception([], 0, Some(AlreadyConnected)), false);
      }
      registrations := registrations[identity := registration.(activeWriters := {writer})];
      connectionsOpened := connectionsOpened + 1;
      var reception := ReadStream(reader);
      if reception.failure.Some? {
        connectionErrors := connectionErrors + 1;
      }
      registrations := registrations[identity := registration];
      assert registrations == old(registrations);
      connectionsClosed := connectionsClosed + 1;
      return Connection(Some(identity), reception, false);
    }

    /** The read loop. */
    method ReadStream(reader: StreamReader) returns (r: Reception)
      modifies this`batchesReceived, this`recordsReceived, reader
      ensures var (frames, end) := ReadAll(codec, limits.maxFrameSize, old(reader.data));
              r == Receive(frames, end, -1, limits.maxBatchRecords)
      ensures recordsReceived == old(recordsReceived) + |r.delivered|
    {
      hide ReadAll, ReadOutcome, Receive, RecordsFromDataBatch;
      ghost var all := ReadAll(codec, limits.maxFrameSize, reader.data);
      ghost var whole := Receive(all.0, all.1, -1, limits.maxBatchRecords);
      var delivered: seq<Record> := [];
      var heartbeatSequence := -1;
      while true
        invariant var (frames, end) := ReadAll(codec, limits.maxFrameSize, reader.data);
                  var rest := Receive(frames, end, heartbeatSequence, limits.maxBatchRecords);
                  whole == rest.(delivered := delivered + rest.delivered)
        invariant recordsReceived == old(recordsReceived) + |delivered|
        decreases |reader.data|
      {
        ReceiveFront(codec, limits.maxFrameSize, reader.data, heartbeatSequence, limits.maxBatchRecords);
        var read := ReadFrame(codec, reader, limits.maxFrameSize);
        if read.Err? {
          return Reception(delivered, 0, Some(Protocol(read.error)));
        }
        var frame := read.value;
        match frame.frameType {
          case DataBatch =>
            var records := RecordsFromDataBatch(frame, limits.maxBatchRecords);
            if records.Err? {
              return Reception(delivered, 0, Some(Protocol(records.error)));
            }
            delivered := delivered + records.value;
            batchesReceived, recordsReceived := batchesReceived + 1, recordsReceived + |records.value|;
          case Heartbeat =>
            if !frame.payload.Sequence? || frame.payload.sequence <= heartbeatSequence {
              return Reception(delivered, 0, Some(HeartbeatOutOfOrder));
            }
            heartbeatSequence := frame.payload.sequence;
          case EndOfStream =>
            if frame.payload != Empty {
              return Reception(delivered, 0, Some(PayloadAfterEnd));
            }
            return Reception(delivered, 1, None);
          case Error => return Reception(delivered, 0, Some(RemoteError));
          case Hello => return Reception(delivered, 0, Some(UnexpectedFrame));
        }
      }
    }
  }
}
