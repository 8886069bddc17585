/**
 The host side of an ADB connection as a pure state machine (adb_proto/src/session.rs): handshake, stream
 multiplexing and one-write-in-flight flow control.

 `Core` is the state apart from the unread input, and each operation has a function on it.  The class `Session`
 performs the operations on fields and is proved against those functions.  What the functions guarantee over whole
 runs is proved in `Lifecycle` and `Reliability`.
 */
module Session {
  import opened Bytes
  import opened Message
  import opened Incremental

  const AUTH_TOKEN: u32 := 1
  const AUTH_SIGNATURE: u32 := 2
  const AUTH_RSAPUBLICKEY: u32 := 3
  const VERSION_SKIP_CHECKSUM: u32 := 0x0100_0001

  /** Signing and key export are library code: a function of the token, a fixed result, and either may fail. */
  datatype Key = Key(signToken: seq<byte> -> Option<seq<byte>>, androidPublicKey: Option<seq<byte>>)

  /** A maximum payload of zero would make the negotiation panic. */
  datatype Config = Config(version: u32, maxPayload: pos32, systemIdentity: seq<byte>, key: Key)

  datatype Event =
    | AwaitingUserApproval
    | ConnectedTo(banner: seq<byte>)
    | StreamOpened(localId: u32)
    | StreamData(localId: u32, data: seq<byte>)
    | StreamClosed(localId: u32)

  datatype ProtoError = Decoding(error: DecodeError) | Protocol | KeyError

  datatype State = Idle | Handshaking | Connected

  datatype Stream = Stream(remoteId: Option<u32>, outbox: seq<byte>, writeInFlight: bool)

  datatype Core = Core(
    config: Config,
    state: State,
    verifyChecksum: bool,
    transmit: seq<Packet>,
    events: seq<Event>,
    sendPublicKeyNext: bool,
    peerMaxPayload: pos32,
    streams: map<u32, Stream>,
    nextLocalId: u32)
  {
    function Send(p: Packet): Core {
      this.(transmit := transmit + [p])
    }

    function Raise(e: Event): Core {
      this.(events := events + [e])
    }
  }

  function Fresh(config: Config): Core {
    Core(config, Idle, true, [], [], false, 4096, map[], 1)
  }

  function Started(c: Core): Core {
    c.Send(Packet(Cnxn, c.config.version, c.config.maxPayload, c.config.systemIdentity + [0])).(state := Handshaking)
  }

  /** `+= 1` on a u32: wraps in a release build (and panics in a debug build, at the same value). */
  function Successor(id: u32): u32 {
    if id == U32_MAX then 0 else id + 1
  }

  function Opened(c: Core, service: seq<byte>): Result<(Core, u32), ProtoError> {
    if c.state != Connected then Err(Protocol)
    else
      var id := c.nextLocalId;
      Ok((c.Send(Packet(Open, id, 0, service + [0]))
          .(nextLocalId := Successor(id), streams := c.streams[id := Stream(None, [], false)]), id))
  }

  function Flushed(c: Core, id: u32): Core {
    if id !in c.streams then c
    else
      var s := c.streams[id];
      if s.remoteId.None? || s.writeInFlight || s.outbox == [] then c
      else
        var len := Min(|s.outbox|, c.peerMaxPayload);
        c.Send(Packet(Wrte, id, s.remoteId.value, s.outbox[..len]))
        .(streams := c.streams[id := s.(outbox := s.outbox[len..], writeInFlight := true)])
  }

  function Written(c: Core, id: u32, data: seq<byte>): Result<Core, ProtoError> {
    if id !in c.streams then Err(Protocol)
    else
      var s := c.streams[id];
      Ok(Flushed(c.(streams := c.streams[id := s.(outbox := s.outbox + data)]), id))
  }

  /** `pending_write_len`: the bytes not yet put into a WRTE. */
  function PendingLen(c: Core, id: u32): nat {
    if id in c.streams then |c.streams[id].outbox| else 0
  }

  function Acked(c: Core, id: u32): Core {
    if id in c.streams && c.streams[id].remoteId.Some?
    then c.Send(Packet(Okay, id, c.streams[id].remoteId.value, []))
    else c
  }

  function Closed(c: Core, id: u32): Core {
    if id in c.streams
    then c.Send(Packet(Clse, id, c.streams[id].remoteId.UnwrapOr(0), [])).(streams := c.streams - {id})
    else c
  }

  function OnOkay(c: Core, remoteId: u32, id: u32): Core {
    if id !in c.streams then c
    else
      var s := c.streams[id];
      if s.remoteId.None?
      then Flushed(c.Raise(StreamOpened(id)).(streams := c.streams[id := s.(remoteId := Some(remoteId))]), id)
      else Flushed(c.(streams := c.streams[id := s.(writeInFlight := false)]), id)
  }

  function OnWrite(c: Core, remoteId: u32, id: u32, data: seq<byte>): Core {
    if id in c.streams then c.Raise(StreamData(id, data)) else c.Send(Packet(Clse, 0, remoteId, []))
  }

  function Clamp(x: u32, max: pos32): pos32 {
    if x < 1 then 1 else if x > max then max else x
  }

  /** Devices re-issue tokens while the user decides: signature and public-key replies alternate. */
  function OnAuth(c: Core, p: Packet): (Core, Option<ProtoError>) {
    if p.arg0 != AUTH_TOKEN then (c, Some(Protocol))
    else if c.sendPublicKeyNext then
      match c.config.key.androidPublicKey
      case None => (c, Some(KeyError))
      case Some(key) =>
        (c.Send(Packet(Auth, AUTH_RSAPUBLICKEY, 0, key)).Raise(AwaitingUserApproval).(sendPublicKeyNext := false), None)
    else
      match c.config.key.signToken(p.payload)
      case None => (c, Some(KeyError))
      case Some(signature) =>
        (c.Send(Packet(Auth, AUTH_SIGNATURE, 0, signature)).(sendPublicKeyNext := true), None)
  }

  function PacketOutcome(c: Core, p: Packet): (Core, Option<ProtoError>) {
    match (c.state, p.command)
    case (Handshaking, Cnxn) =>
      var negotiated := Min(p.arg0, c.config.version);
      (c.Raise(ConnectedTo(p.payload))
       .(verifyChecksum := negotiated < VERSION_SKIP_CHECKSUM,
         peerMaxPayload := Clamp(p.arg1, c.config.maxPayload),
         state := Connected), None)
    case (Handshaking, Auth) => OnAuth(c, p)
    case (Connected, Okay) => (OnOkay(c, p.arg0, p.arg1), None)
    case (Connected, Wrte) => (OnWrite(c, p.arg0, p.arg1, p.payload), None)
    case (Connected, Clse) =>
      if p.arg1 in c.streams
      then (c.Raise(StreamClosed(p.arg1)).(streams := c.streams - {p.arg1}), None)
      else (c, None)
    case _ => (c, Some(Protocol))
  }

  /** One turn of the input loop: decode a packet with the checksum setting in force, and handle it. */
  function InputStep(c: Core, unread: seq<byte>): Step<Core, ProtoError> {
    match Parse(unread, c.config.maxPayload, c.verifyChecksum)
    case NeedMore => More
    case Bad(n, e) => Fault(n, c, Decoding(e))
    case Got(n, p) =>
      var (next, error) := PacketOutcome(c, p);
      if error.None? then Took(n, next) else Fault(n, next, error.value)
  }

  lemma InputStepIsPrompt()
    ensures Prompt(InputStep)
  {
    forall c, a, b ensures FinalAt(InputStep, c, a, b) {
      ParseIsPrompt(a, b, c.config.maxPayload, c.verifyChecksum);
    }
  }

  /** One turn of the loop, spelled out. */
  lemma InputTurn(c: Core, unread: seq<byte>)
    ensures Prompt(InputStep)
    ensures var r := Parse(unread, c.config.maxPayload, c.verifyChecksum);
            && (r.NeedMore? ==> Drain(InputStep, c, unread) == Outcome(c, unread, None))
            && (r.Bad? ==>
                  && r.used <= |unread|
                  && Drain(InputStep, c, unread) == Outcome(c, unread[r.used..], Some(Decoding(r.error))))
            && (r.Got? ==>
                  && 0 < r.used <= |unread|
                  && var o := PacketOutcome(c, r.packet);
                     Drain(InputStep, c, unread) ==
                       if o.1.None? then Drain(InputStep, o.0, unread[r.used..])
                       else Outcome(o.0, unread[r.used..], o.1))
  {
    InputStepIsPrompt();
    ParseIsPrompt(unread, [], c.config.maxPayload, c.verifyChecksum);
  }

  /** The outcome of feeding bytes to a session in state `c` that still holds `unread`. */
  ghost function InputOutcome(c: Core, unread: seq<byte>, bytes: seq<byte>): Outcome<Core, ProtoError> {
    InputStepIsPrompt();
    Drain(InputStep, c, unread + bytes)
  }

  /** Feeding chunks until the first error, as a driver does. */
  ghost function HandleChunks(c: Core, unread: seq<byte>, chunks: seq<seq<byte>>): Fed<Core, ProtoError>
    requires chunks != []
  {
    InputStepIsPrompt();
    Feed(InputStep, c, unread, chunks)
  }

  /**
   However the bytes of a connection are cut into chunks, the session sends the same packets, raises the same events,
   holds the same streams and reports the same first error, although a CNXN among them switches checksum
   verification on or off for the bytes behind it.  Nothing is lost either: what was not consumed is still unread.
   */
  lemma FragmentationInvisible(c: Core, unread: seq<byte>, chunks: seq<seq<byte>>)
    requires chunks != []
    ensures var fed := HandleChunks(c, unread, chunks);
            var whole := InputOutcome(c, unread, Flatten(chunks));
            && whole.state == fed.outcome.state
            && whole.error == fed.outcome.error
            && whole.rest == fed.outcome.rest + Flatten(fed.unfed)
            && (whole.error.None? ==> fed.unfed == [])
  {
    InputStepIsPrompt();
    ChunkingInvisible(InputStep, c, unread, chunks);
  }

  class Session {
    const config: Config
    var state: State
    const decoder: PacketDecoder
    var transmit: seq<Packet>
    var events: seq<Event>
    var sendPublicKeyNext: bool
    var peerMaxPayload: pos32
    var streams: map<u32, Stream>
    var nextLocalId: u32

    ghost predicate Valid()
      reads this, decoder
    {
      decoder.Valid() && decoder.maxPayload == config.maxPayload
    }

    ghost function View(): Core
      reads this, decoder
    {
      Core(config, state, decoder.verifyChecksum, transmit, events, sendPublicKeyNext, peerMaxPayload, streams,
           nextLocalId)
    }

    constructor (config: Config)
      ensures Valid() && fresh(decoder) && View() == Fresh(config) && decoder.Unread() == []
    {
      this.config := config;
      state := Idle;
      decoder := new PacketDecoder(config.maxPayload);
      transmit := [];
      events := [];
      sendPublicKeyNext := false;
      peerMaxPayload := 4096;
      streams := map[];
      nextLocalId := 1;
    }

    method Start()
      requires Valid()
      modifies this
      ensures Valid() && View() == Started(old(View()))
    {
      transmit := transmit + [Packet(Cnxn, config.version, config.maxPayload, config.systemIdentity + [0])];
      state := Handshaking;
    }

    method PollTransmit() returns (p: Option<Packet>)
      requires Valid()
      modifies this
      ensures Valid()
      ensures old(transmit) == (if p.Some? then [p.value] else []) + transmit && (p.None? ==> transmit == [])
      ensures View() == old(View()).(transmit := transmit)
    {
      if transmit == [] {
        return None;
      }
      p := Some(transmit[0]);
      transmit := transmit[1..];
    }

    method PollEvent() returns (e: Option<Event>)
      requires Valid()
      modifies this
      ensures Valid()
      ensures old(events) == (if e.Some? then [e.value] else []) + events && (e.None? ==> events == [])
      ensures View() == old(View()).(events := events)
    {
      if events == [] {
        return None;
      }
      e := Some(events[0]);
      events := events[1..];
    }

    method HandleInput(bytes: seq<byte>) returns (error: Option<ProtoError>)
      requires Valid()
      modifies this, decoder
      ensures Valid()
      ensures Outcome(View(), decoder.Unread(), error) == InputOutcome(old(View()), old(decoder.Unread()), bytes)
    {
      InputStepIsPrompt();
      ghost var expected := InputOutcome(View(), decoder.Unread(), bytes);
      decoder.Push(bytes);
      while true
        invariant Valid()
        invariant Drain(InputStep, View(), decoder.Unread()) == expected
        decreases |decoder.Unread()|
      {
        InputTurn(View(), decoder.Unread());
        var next := decoder.NextPacket();
        match next {
          case Err(e) =>
            return Some(Decoding(e));
          case Ok(None) =>
            return None;
          case Ok(Some(packet)) =>
            error := HandlePacket(packet);
            if error.Some? {
              return;
            }
        }
      }
    }

    method Open(service: seq<byte>) returns (r: Result<u32, ProtoError>)
      requires Valid()
      modifies this
      ensures Valid()
      ensures match Opened(old(View()), service)
              case Err(e) => r == Err(e) && View() == old(View())
              case Ok((next, id)) => r == Ok(id) && View() == next
    {
      if state != Connected {
        return Err(Protocol);
      }
      var localId := nextLocalId;
      nextLocalId := Successor(nextLocalId);
      transmit := transmit + [Packet(Command.Open, localId, 0, service + [0])];
      streams := streams[localId := Stream(None, [], false)];
      return Ok(localId);
    }

    method Write(localId: u32, data: seq<byte>) returns (error: Option<ProtoError>)
      requires Valid()
      modifies this
      ensures Valid()
      ensures match Written(old(View()), localId, data)
              case Err(e) => error == Some(e) && View() == old(View())
              case Ok(next) => error == None && View() == next
    {
      if localId !in streams {
        return Some(Protocol);
      }
      var stream := streams[localId];
      streams := streams[localId := stream.(outbox := stream.outbox + data)];
      Flush(localId);
      return None;
    }

    method PendingWriteLen(localId: u32) returns (n: nat)
      requires Valid()
      ensures n == PendingLen(View(), localId)
    {
      n := if localId in streams then |streams[localId].outbox| else 0;
    }

    method Ack(localId: u32)
      requires Valid()
      modifies this
      ensures Valid() && View() == Acked(old(View()), localId)
    {
      if localId in streams && streams[localId].remoteId.Some? {
        transmit := transmit + [Packet(Okay, localId, streams[localId].remoteId.value, [])];
      }
    }

    method Close(localId: u32)
      requires Valid()
      modifies this
      ensures Valid() && View() == Closed(old(View()), localId)
    {
      if localId in streams {
        transmit := transmit + [Packet(Clse, localId, streams[localId].remoteId.UnwrapOr(0), [])];
        streams := streams - {localId};
      }
    }

    method Flush(localId: u32)
      requires Valid()
      modifies this
      ensures Valid() && View() == Flushed(old(View()), localId)
    {
      if localId !in streams {
        return;
      }
      var stream := streams[localId];
      if stream.remoteId.None? || stream.writeInFlight || stream.outbox == [] {
        return;
      }
      var len := Min(|stream.outbox|, peerMaxPayload);
      transmit := transmit + [Packet(Wrte, localId, stream.remoteId.value, stream.outbox[..len])];
      streams := streams[localId := stream.(outbox := stream.outbox[len..], writeInFlight := true)];
    }

    method HandlePacket(packet: Packet) returns (error: Option<ProtoError>)
      requires Valid()
      modifies this, decoder
      ensures Valid() && decoder.Unread() == old(decoder.Unread())
      ensures (View(), error) == PacketOutcome(old(View()), packet)
    {
      match (state, packet.command) {
        case (Handshaking, Cnxn) =>
          var negotiated := Min(packet.arg0, config.version);
          decoder.SetVerifyChecksum(negotiated < VERSION_SKIP_CHECKSUM);
          peerMaxPayload := Clamp(packet.arg1, config.maxPayload);
          state := Connected;
          events := events + [ConnectedTo(packet.payload)];
          return None;
        case (Handshaking, Auth) =>
          if packet.arg0 != AUTH_TOKEN {
            return Some(Protocol);
          }
          if sendPublicKeyNext {
            if config.key.androidPublicKey.None? {
              return Some(KeyError);
            }
            transmit := transmit + [Packet(Auth, AUTH_RSAPUBLICKEY, 0, config.key.androidPublicKey.value)];
            events := events + [AwaitingUserApproval];
          } else {
            var signature := config.key.signToken(packet.payload);
            if signature.None? {
              return Some(KeyError);
            }
            transmit := transmit + [Packet(Auth, AUTH_SIGNATURE, 0, signature.value)];
          }
          sendPublicKeyNext := !sendPublicKeyNext;
          return None;
        case (Connected, Okay) =>
          HandleOkay(packet.arg0, packet.arg1);
          return None;
        case (Connected, Wrte) =>
          if packet.arg1 in streams {
            events := events + [StreamData(packet.arg1, packet.payload)];
          } else {
            transmit := transmit + [Packet(Clse, 0, packet.arg0, [])];
          }
          return None;
        case (Connected, Clse) =>
          if packet.arg1 in streams {
            streams := streams - {packet.arg1};
            events := events + [StreamClosed(packet.arg1)];
          }
          return None;
        case _ =>
          return Some(Protocol);
      }
    }

    method HandleOkay(remoteId: u32, localId: u32)
      requires Valid()
      modifies this
      ensures Valid() && View() == OnOkay(old(View()), remoteId, localId)
    {
      if localId !in streams {
        return;
      }
      var stream := streams[localId];
      if stream.remoteId.None? {
        streams := streams[localId := stream.(remoteId := Some(remoteId))];
        events := events + [StreamOpened(localId)];
      } else {
        streams := streams[localId := stream.(writeInFlight := false)];
      }
      Flush(localId);
    }
  }
}
