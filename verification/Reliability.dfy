/**
 End-to-end reliability of a connected session (adb_proto/src/session.rs:183-243, 303-314).

 The session is composed with a device over two FIFO channels.  The device may accept or refuse a stream, owes one
 OKAY for every OPEN it accepts and every WRTE it takes, pays when it likes, sends data and closes streams when it
 likes.  Whatever the interleaving, no byte written to a stream is lost, duplicated, reordered or mixed into another
 stream, and at most one credit is outstanding per stream.
 */
module Reliability {
  import opened Bytes
  import opened Message
  import opened Session

  /** The device's end of a stream: what it has received and sent, and the OKAYs it still owes. */
  datatype DeviceStream = DeviceStream(remoteId: u32, received: seq<byte>, sent: seq<byte>, owed: nat, closed: bool)

  /** `given` is ghost history: the bytes the host program has passed to `write`, stream by stream. */
  datatype Net = Net(
    host: Core,
    up: seq<Packet>,
    down: seq<Packet>,
    device: map<u32, DeviceStream>,
    given: map<u32, seq<byte>>)

  datatype Move =
    | HostOpen(service: seq<byte>)
    | HostWrite(id: u32, data: seq<byte>)
    | HostAck(id: u32)
    | HostClose(id: u32)
    | Transmit
    | Deliver
    | DeviceTake(accept: bool, remoteId: u32)
    | DeviceOkay(id: u32)
    | DeviceData(id: u32, data: seq<byte>)
    | DeviceClose(id: u32)

  predicate Enabled(n: Net, m: Move) {
    match m
    case HostOpen(_) => n.host.nextLocalId < U32_MAX
    case Transmit => n.host.transmit != []
    case Deliver => n.down != []
    case DeviceTake(_, _) => n.up != []
    case DeviceOkay(id) => id in n.device && !n.device[id].closed && n.device[id].owed > 0
    case DeviceData(id, _) => id in n.device && !n.device[id].closed
    case DeviceClose(id) => id in n.device && !n.device[id].closed
    case _ => true
  }

  function GivenTo(n: Net, id: u32): seq<byte> {
    if id in n.given then n.given[id] else []
  }

  /** The device takes the oldest packet on its way to it. */
  function Taken(n: Net, accept: bool, remoteId: u32): (r: Net)
    requires n.up != []
    ensures r.host == n.host && r.given == n.given && r.up == n.up[1..]
  {
    var p := n.up[0];
    var rest := n.(up := n.up[1..]);
    var id := p.arg0;
    if p.command == Open && id !in n.device then
      if accept then rest.(device := n.device[id := DeviceStream(remoteId, [], [], 1, false)])
      else rest.(device := n.device[id := DeviceStream(0, [], [], 0, true)], down := n.down + [Packet(Clse, 0, id, [])])
    else if id in n.device && !n.device[id].closed && n.device[id].remoteId == p.arg1 then
      var s := n.device[id];
      if p.command == Wrte then
        rest.(device := n.device[id := s.(received := s.received + p.payload, owed := s.owed + 1)])
      else if p.command == Clse then
        rest.(device := n.device[id := s.(closed := true)])
      else rest
    else rest
  }

  function Next(n: Net, m: Move): Net
    requires Enabled(n, m)
  {
    match m
    case HostOpen(service) =>
      (match Opened(n.host, service)
       case Err(_) => n
       case Ok((host, id)) => n.(host := host, given := n.given[id := []]))
    case HostWrite(id, data) =>
      (match Written(n.host, id, data)
       case Err(_) => n
       case Ok(host) => n.(host := host, given := n.given[id := GivenTo(n, id) + data]))
    case HostAck(id) => n.(host := Acked(n.host, id))
    case HostClose(id) => n.(host := Closed(n.host, id))
    case Transmit => n.(up := n.up + [n.host.transmit[0]], host := n.host.(transmit := n.host.transmit[1..]))
    case Deliver => n.(down := n.down[1..], host := PacketOutcome(n.host, n.down[0]).0)
    case DeviceTake(accept, remoteId) => Taken(n, accept, remoteId)
    case DeviceOkay(id) =>
      var s := n.device[id];
      n.(device := n.device[id := s.(owed := s.owed - 1)], down := n.down + [Packet(Okay, s.remoteId, id, [])])
    case DeviceData(id, data) =>
      var s := n.device[id];
      n.(device := n.device[id := s.(sent := s.sent + data)], down := n.down + [Packet(Wrte, s.remoteId, id, data)])
    case DeviceClose(id) =>
      var s := n.device[id];
      n.(device := n.device[id := s.(closed := true)], down := n.down + [Packet(Clse, s.remoteId, id, [])])
  }

  /** A freshly connected session; packets of the handshake may still be on their way. */
  predicate Initial(n: Net) {
    && n.host.state == Connected && n.host.streams == map[] && n.host.nextLocalId == 1
    && (forall p <- n.up + n.host.transmit :: p.command in {Cnxn, Auth})
    && (forall e <- n.host.events :: !e.StreamData?)
    && n.down == [] && n.device == map[] && n.given == map[]
  }

  predicate Legal(n: Net, moves: seq<Move>)
    decreases |moves|
  {
    moves == [] || (Enabled(n, moves[0]) && Legal(Next(n, moves[0]), moves[1..]))
  }

  function After(n: Net, moves: seq<Move>): Net
    requires Legal(n, moves)
    decreases |moves|
  {
    if moves == [] then n else After(Next(n, moves[0]), moves[1..])
  }

  // ---- What is on its way ----

  predicate OfStream(p: Packet, id: u32) {
    p.arg0 == id && p.command in {Open, Wrte, Okay, Clse}
  }

  /** The bytes in the writes of a stream among some packets. */
  function DataOn(ps: seq<Packet>, id: u32): seq<byte> {
    if ps == [] then []
    else if ps[0].command == Wrte && ps[0].arg0 == id then ps[0].payload + DataOn(ps[1..], id)
    else DataOn(ps[1..], id)
  }

  /** The packets of a stream the device will owe an OKAY for. */
  function CreditsOn(ps: seq<Packet>, id: u32): nat {
    if ps == [] then 0
    else (if ps[0].command in {Open, Wrte} && ps[0].arg0 == id then 1 else 0) + CreditsOn(ps[1..], id)
  }

  function OkaysOn(ps: seq<Packet>, id: u32): nat {
    if ps == [] then 0
    else (if ps[0].command == Okay && ps[0].arg1 == id then 1 else 0) + OkaysOn(ps[1..], id)
  }

  lemma {:induction false} OnAppend(ps: seq<Packet>, p: Packet, id: u32)
    ensures DataOn(ps + [p], id) ==
            if p.command == Wrte && p.arg0 == id then DataOn(ps, id) + p.payload else DataOn(ps, id)
    ensures CreditsOn(ps + [p], id) == CreditsOn(ps, id) + if p.command in {Open, Wrte} && p.arg0 == id then 1 else 0
    ensures OkaysOn(ps + [p], id) == OkaysOn(ps, id) + if p.command == Okay && p.arg1 == id then 1 else 0
  {
    if ps == [] {
      assert [p][1..] == [];
    } else {
      assert (ps + [p])[1..] == ps[1..] + [p];
      OnAppend(ps[1..], p, id);
    }
  }

  lemma {:induction false} OnQuiet(ps: seq<Packet>, id: u32)
    ensures (forall p <- ps :: !OfStream(p, id)) ==> DataOn(ps, id) == [] && CreditsOn(ps, id) == 0
    ensures (forall p <- ps :: p.arg1 != id) ==> OkaysOn(ps, id) == 0
  {
    if ps != [] {
      assert ps[0] in ps;
      OnQuiet(ps[1..], id);
    }
  }

  lemma {:induction false} NoCredits(ps: seq<Packet>, id: u32)
    requires CreditsOn(ps, id) == 0
    ensures forall p <- ps :: !(p.command in {Open, Wrte} && p.arg0 == id)
  {
    if ps != [] {
      NoCredits(ps[1..], id);
      assert forall p <- ps :: p == ps[0] || p in ps[1..];
    }
  }

  function Pipe(n: Net): seq<Packet> {
    n.up + n.host.transmit
  }

  function StreamOn(n: Net, id: u32): Option<Stream> {
    if id in n.host.streams then Some(n.host.streams[id]) else None
  }

  function DeviceOn(n: Net, id: u32): Option<DeviceStream> {
    if id in n.device then Some(n.device[id]) else None
  }

  function ReceivedBy(d: Option<DeviceStream>): seq<byte> {
    if d.Some? then d.value.received else []
  }

  function OwedBy(d: Option<DeviceStream>): nat {
    if d.Some? then d.value.owed else 0
  }

  predicate ClosedBy(d: Option<DeviceStream>) {
    d.Some? && d.value.closed
  }

  /**
   The claim for a stream open at both ends: what the device has received, then what is on its way, then what is
   queued, is what was given; and there is a credit out exactly when the open or a write is unanswered, and only one.
   */
  predicate Conserved(s: Stream, d: Option<DeviceStream>, data: seq<byte>, credits: nat, okays: nat, given: seq<byte>) {
    && ReceivedBy(d) + data + s.outbox == given
    && credits + OwedBy(d) + okays == (if s.remoteId.None? || s.writeInFlight then 1 else 0)
    && (s.remoteId.None? ==> data == [] && ReceivedBy(d) == [])
    && (s.remoteId.Some? && !s.writeInFlight ==> s.outbox == [])
  }

  /** The account of one stream: at any time the device has received a prefix of what was given. */
  predicate Account(
      s: Option<Stream>, d: Option<DeviceStream>, data: seq<byte>, credits: nat, okays: nat, given: seq<byte>) {
    && (if ClosedBy(d) then ReceivedBy(d) <= given else ReceivedBy(d) + data <= given)
    && (d.None? ==> credits == 1)
    && (s.Some? && !ClosedBy(d) ==> Conserved(s.value, d, data, credits, okays, given))
  }

  predicate Accounted(n: Net, id: u32) {
    Account(StreamOn(n, id), DeviceOn(n, id), DataOn(Pipe(n), id), CreditsOn(Pipe(n), id), OkaysOn(n.down, id),
            GivenTo(n, id))
  }

  predicate Untouched(n: Net, id: u32) {
    && id !in n.host.streams && id !in n.device && id !in n.given
    && (forall p <- Pipe(n) :: !OfStream(p, id))
    && (forall p <- n.down :: p.arg1 != id)
  }

  /** Packets carry the right addresses. */
  predicate Addressed(n: Net, id: u32) {
    && (forall p <- Pipe(n) | OfStream(p, id) ::
          && (p.command == Open ==> id !in n.device)
          && (p.command == Wrte ==> id in n.device && p.arg1 == n.device[id].remoteId))
    && (forall p <- n.down | p.arg1 == id ::
          id in n.device && (p.command == Okay ==> p.arg0 == n.device[id].remoteId))
    && (id in n.host.streams && n.host.streams[id].remoteId.Some? ==>
          id in n.device && n.device[id].remoteId == n.host.streams[id].remoteId.value)
    && (id in n.host.streams && n.host.streams[id].remoteId.None? ==> !n.host.streams[id].writeInFlight)
  }

  predicate Inv(n: Net, id: u32) {
    if id < n.host.nextLocalId then Addressed(n, id) && Accounted(n, id) else Untouched(n, id)
  }

  predicate HostOk(n: Net) {
    && n.host.state == Connected && 1 <= n.host.nextLocalId
    && (forall id <- n.host.streams :: 1 <= id < n.host.nextLocalId)
  }

  // ---- Every move keeps the invariant ----

  /** The host has queued one more packet (or none) and nothing is taken off the pipe. */
  lemma PipeGrows(n: Net, n': Net, p: Packet, id: u32)
    requires n'.up == n.up && n'.host.transmit == n.host.transmit + [p]
    ensures Pipe(n') == Pipe(n) + [p]
    ensures DataOn(Pipe(n'), id) ==
            if p.command == Wrte && p.arg0 == id then DataOn(Pipe(n), id) + p.payload else DataOn(Pipe(n), id)
    ensures CreditsOn(Pipe(n'), id) ==
            CreditsOn(Pipe(n), id) + if p.command in {Open, Wrte} && p.arg0 == id then 1 else 0
  {
    assert n.up + (n.host.transmit + [p]) == n.up + n.host.transmit + [p];
    OnAppend(Pipe(n), p, id);
  }

  /** Nothing about stream `id` differs, but for packets that have gone or that it does not care about. */
  predicate SameFor(n: Net, n': Net, id: u32) {
    && (id in n'.host.streams <==> id in n.host.streams)
    && (id in n.host.streams ==> n'.host.streams[id] == n.host.streams[id])
    && (id in n'.device <==> id in n.device)
    && (id in n.device ==> n'.device[id] == n.device[id])
    && (id in n'.given <==> id in n.given)
    && GivenTo(n', id) == GivenTo(n, id)
    && (id < n'.host.nextLocalId <==> id < n.host.nextLocalId)
    && DataOn(Pipe(n'), id) == DataOn(Pipe(n), id)
    && CreditsOn(Pipe(n'), id) == CreditsOn(Pipe(n), id)
    && OkaysOn(n'.down, id) == OkaysOn(n.down, id)
    && (forall p <- Pipe(n') | OfStream(p, id) && (p.command in {Open, Wrte} || id >= n.host.nextLocalId) ::
          p in Pipe(n))
    && (forall p <- n'.down | p.arg1 == id && (p.command == Okay || id !in n.device) :: p in n.down)
  }

  lemma SameKeeps(n: Net, n': Net, id: u32)
    requires SameFor(n, n', id) && Inv(n, id)
    ensures Inv(n', id)
  {
  }

  /** The host queues a packet that is none of stream `id`'s business, and leaves that stream alone. */
  lemma GrowsElsewhere(n: Net, n': Net, p: Packet, id: u32)
    requires Inv(n, id)
    requires n'.up == n.up && n'.down == n.down && n'.device == n.device
    requires n'.host.transmit == n.host.transmit + [p]
    requires p.arg0 != id || (p.command in {Okay, Clse} && id < n.host.nextLocalId)
    requires StreamOn(n', id) == StreamOn(n, id) && n'.given.Keys - {p.arg0} == n.given.Keys - {p.arg0}
    requires p.arg0 == id ==> n'.given == n.given
    requires GivenTo(n', id) == GivenTo(n, id) && (id < n'.host.nextLocalId <==> id < n.host.nextLocalId)
    ensures Inv(n', id)
  {
    PipeGrows(n, n', p, id);
    assert id in n'.given.Keys - {p.arg0} <==> id in n.given.Keys - {p.arg0};
    assert SameFor(n, n', id);
    SameKeeps(n, n', id);
  }

  lemma HostOpenKeeps(n: Net, service: seq<byte>, id: u32)
    requires HostOk(n) && 1 <= id && Inv(n, id) && n.host.nextLocalId < U32_MAX
    ensures var n' := Next(n, HostOpen(service)); HostOk(n') && Inv(n', id)
  {
    var n' := Next(n, HostOpen(service));
    var p := Packet(Open, n.host.nextLocalId, 0, service + [0]);
    if id == n.host.nextLocalId {
      PipeGrows(n, n', p, id);
      OnQuiet(Pipe(n), id);
      OnQuiet(n.down, id);
    } else {
      GrowsElsewhere(n, n', p, id);
    }
  }

  lemma HostAckKeeps(n: Net, i: u32, id: u32)
    requires HostOk(n) && 1 <= id && Inv(n, id)
    ensures var n' := Next(n, HostAck(i)); HostOk(n') && Inv(n', id)
  {
    if i in n.host.streams && n.host.streams[i].remoteId.Some? {
      GrowsElsewhere(n, Next(n, HostAck(i)), Packet(Okay, i, n.host.streams[i].remoteId.value, []), id);
    }
  }

  lemma HostCloseKeeps(n: Net, i: u32, id: u32)
    requires HostOk(n) && 1 <= id && Inv(n, id)
    ensures var n' := Next(n, HostClose(i)); HostOk(n') && Inv(n', id)
  {
    if i in n.host.streams {
      var p := Packet(Clse, i, n.host.streams[i].remoteId.UnwrapOr(0), []);
      if i == id {
        CloseHere(n, p, id);
      } else {
        GrowsElsewhere(n, Next(n, HostClose(i)), p, id);
      }
    }
  }

  lemma CloseHere(n: Net, p: Packet, id: u32)
    requires HostOk(n) && 1 <= id && Inv(n, id) && id in n.host.streams && p.command == Clse && p.arg0 == id
    ensures Inv(n.(host := n.host.Send(p).(streams := n.host.streams - {id})), id)
  {
    var n' := n.(host := n.host.Send(p).(streams := n.host.streams - {id}));
    PipeGrows(n, n', p, id);
    CloseAddressed(n, n', p, id);
    assert StreamOn(n', id) == None;
    GoneAccount(StreamOn(n, id), DeviceOn(n, id), DataOn(Pipe(n), id), CreditsOn(Pipe(n), id), OkaysOn(n.down, id),
                GivenTo(n, id));
  }

  lemma CloseAddressed(n: Net, n': Net, p: Packet, id: u32)
    requires Addressed(n, id) && Pipe(n') == Pipe(n) + [p] && p.command == Clse
    requires n'.down == n.down && n'.device == n.device && id !in n'.host.streams
    ensures Addressed(n', id)
  {
  }

  /** What the account says of the device does not depend on the host's end of the stream. */
  lemma GoneAccount(s: Option<Stream>, d: Option<DeviceStream>, data: seq<byte>, credits: nat, okays: nat,
                    given: seq<byte>)
    requires Account(s, d, data, credits, okays, given)
    ensures Account(None, d, data, credits, okays, given)
  {
  }

  /** Flushing a stream with nothing in flight moves a chunk from the outbox onto the pipe, as the one credit. */
  lemma FlushAccount(s: Stream, d: DeviceStream, data: seq<byte>, len: nat, given: seq<byte>)
    requires s.remoteId.Some? && !s.writeInFlight && s.outbox != [] && 1 <= len <= |s.outbox|
    requires if d.closed then d.received <= given else d.received + data + s.outbox == given && d.owed == 0
    ensures Account(Some(s.(outbox := s.outbox[len..], writeInFlight := true)), Some(d), data + s.outbox[..len], 1, 0,
                    given)
  {
    assert s.outbox == s.outbox[..len] + s.outbox[len..];
    assert d.received + data + s.outbox == d.received + (data + s.outbox[..len]) + s.outbox[len..];
  }

  /** The host may flush stream `id`: nothing is in flight and no credit is out. */
  predicate Ready(n: Net, id: u32) {
    && id in n.host.streams && n.host.streams[id].remoteId.Some? && !n.host.streams[id].writeInFlight
    && Addressed(n, id)
    && (if n.device[id].closed then n.device[id].received <= GivenTo(n, id)
        else
          && n.device[id].received + DataOn(Pipe(n), id) + n.host.streams[id].outbox == GivenTo(n, id)
          && CreditsOn(Pipe(n), id) == 0 && n.device[id].owed == 0 && OkaysOn(n.down, id) == 0)
  }

  lemma FlushReady(n: Net, id: u32)
    requires HostOk(n) && 1 <= id < n.host.nextLocalId && Ready(n, id)
    ensures var n' := n.(host := Flushed(n.host, id)); HostOk(n') && Inv(n', id)
  {
    var s := n.host.streams[id];
    if s.outbox != [] {
      var n' := n.(host := Flushed(n.host, id));
      var len := Min(|s.outbox|, n.host.peerMaxPayload);
      PipeGrows(n, n', Packet(Wrte, id, s.remoteId.value, s.outbox[..len]), id);
      FlushAccount(s, n.device[id], DataOn(Pipe(n), id), len, GivenTo(n, id));
    }
  }

  lemma FlushElsewhere(n: Net, i: u32, id: u32)
    requires HostOk(n) && 1 <= id && Inv(n, id) && i != id
    ensures var n' := n.(host := Flushed(n.host, i)); HostOk(n') && Inv(n', id)
  {
    var n' := n.(host := Flushed(n.host, i));
    if n' != n {
      var s := n.host.streams[i];
      GrowsElsewhere(n, n', Packet(Wrte, i, s.remoteId.value, s.outbox[..Min(|s.outbox|, n.host.peerMaxPayload)]), id);
    }
  }

  lemma HostWriteKeeps(n: Net, i: u32, data: seq<byte>, id: u32)
    requires HostOk(n) && 1 <= id && Inv(n, id)
    ensures var n' := Next(n, HostWrite(i, data)); HostOk(n') && Inv(n', id)
  {
    if i in n.host.streams {
      var s := n.host.streams[i];
      var mid := n.(host := n.host.(streams := n.host.streams[i := s.(outbox := s.outbox + data)]),
                    given := n.given[i := GivenTo(n, i) + data]);
      if i != id {
        assert SameFor(n, mid, id);
        SameKeeps(n, mid, id);
        FlushElsewhere(mid, i, id);
      } else {
        WriteHere(n, mid, data, id);
      }
    }
  }

  /** `mid` is `n` with some data given to a stream and queued. */
  ghost predicate Queued(n: Net, mid: Net, data: seq<byte>, id: u32)
    requires id in n.host.streams
  {
    var s := n.host.streams[id];
    && mid.up == n.up && mid.down == n.down && mid.device == n.device
    && mid.given == n.given[id := GivenTo(n, id) + data]
    && mid.host == n.host.(streams := n.host.streams[id := s.(outbox := s.outbox + data)])
  }

  lemma WriteHere(n: Net, mid: Net, data: seq<byte>, id: u32)
    requires HostOk(n) && 1 <= id && Inv(n, id) && id in n.host.streams
    requires Queued(n, mid, data, id)
    ensures var n' := mid.(host := Flushed(mid.host, id)); HostOk(n') && Inv(n', id)
  {
    assert Pipe(mid) == Pipe(n);
    var s := n.host.streams[id];
    if s.remoteId.Some? && !s.writeInFlight {
      WriteWhenIdle(n, mid, data, id);
      FlushReady(mid, id);
    } else {
      WriteWhenBusy(s, DeviceOn(n, id), DataOn(Pipe(n), id), CreditsOn(Pipe(n), id), OkaysOn(n.down, id),
                    GivenTo(n, id), data);
      assert mid.(host := Flushed(mid.host, id)) == mid;
    }
  }

  /** Bytes that cannot be sent yet are queued behind the others. */
  lemma WriteWhenBusy(s: Stream, d: Option<DeviceStream>, onTheWay: seq<byte>, credits: nat, okays: nat,
                      given: seq<byte>, data: seq<byte>)
    requires Account(Some(s), d, onTheWay, credits, okays, given) && (s.remoteId.None? || s.writeInFlight)
    ensures Account(Some(s.(outbox := s.outbox + data)), d, onTheWay, credits, okays, given + data)
  {
    Regrouped(ReceivedBy(d) + onTheWay, s.outbox, data);
  }

  lemma WriteWhenIdle(n: Net, mid: Net, data: seq<byte>, id: u32)
    requires 1 <= id < n.host.nextLocalId && Inv(n, id) && id in n.host.streams
    requires n.host.streams[id].remoteId.Some? && !n.host.streams[id].writeInFlight && Pipe(mid) == Pipe(n)
    requires Queued(n, mid, data, id)
    ensures Ready(mid, id)
  {
    var received, onTheWay := ReceivedBy(DeviceOn(n, id)), DataOn(Pipe(n), id);
    Regrouped(received + onTheWay, n.host.streams[id].outbox, data);
  }

  lemma TransmitKeeps(n: Net, id: u32)
    requires HostOk(n) && 1 <= id && Inv(n, id) && n.host.transmit != []
    ensures var n' := Next(n, Transmit); HostOk(n') && Inv(n', id)
  {
    var n' := Next(n, Transmit);
    assert n.up + [n.host.transmit[0]] + n.host.transmit[1..] == n.up + n.host.transmit;
    assert Pipe(n') == Pipe(n);
    SameKeeps(n, n', id);
  }

  // ---- Packets reaching the host ----

  lemma DeliverKeeps(n: Net, id: u32)
    requires HostOk(n) && 1 <= id && Inv(n, id) && n.down != []
    ensures var n' := Next(n, Deliver); HostOk(n') && Inv(n', id)
  {
    var q, rest := n.down[0], n.down[1..];
    if q.command == Okay {
      DeliverOkay(n, id);
    } else {
      HeadGone(n, id);
      if q.command == Wrte {
        DeliverData(n.(down := rest), q, id);
      } else if q.command == Clse {
        DeliverClose(n.(down := rest), q, id);
      } else {
        assert PacketOutcome(n.host, q).0 == n.host;
      }
    }
  }

  /** A packet other than OKAY is off the channel. */
  lemma HeadGone(n: Net, id: u32)
    requires HostOk(n) && 1 <= id && Inv(n, id) && n.down != [] && n.down[0].command != Okay
    ensures Inv(n.(down := n.down[1..]), id)
  {
    assert SameFor(n, n.(down := n.down[1..]), id);
    SameKeeps(n, n.(down := n.down[1..]), id);
  }

  /** The host has noted the OKAY at the head of `down` but not flushed the stream yet. */
  function Noted(n: Net): Net
    requires n.down != [] && n.down[0].arg1 in n.host.streams
  {
    var q := n.down[0];
    var s := n.host.streams[q.arg1];
    var rest := n.(down := n.down[1..]);
    if s.remoteId.None?
    then
      var streams := n.host.streams[q.arg1 := s.(remoteId := Some(q.arg0))];
      rest.(host := n.host.Raise(StreamOpened(q.arg1)).(streams := streams))
    else rest.(host := n.host.(streams := n.host.streams[q.arg1 := s.(writeInFlight := false)]))
  }

  lemma DeliverOkay(n: Net, id: u32)
    requires HostOk(n) && 1 <= id && Inv(n, id) && n.down != [] && n.down[0].command == Okay
    ensures var n' := Next(n, Deliver); HostOk(n') && Inv(n', id)
  {
    var q := n.down[0];
    if q.arg1 !in n.host.streams {
      OkayIgnored(n, id);
    } else {
      var mid := Noted(n);
      assert Next(n, Deliver) == mid.(host := Flushed(mid.host, q.arg1));
      if q.arg1 == id {
        OkayHere(n, id);
        FlushReady(mid, id);
      } else {
        OkayElsewhere(n, id);
        FlushElsewhere(mid, q.arg1, id);
      }
    }
  }

  lemma OkayIgnored(n: Net, id: u32)
    requires HostOk(n) && 1 <= id && Inv(n, id) && n.down != [] && n.down[0].arg1 !in n.host.streams
    ensures Inv(n.(down := n.down[1..]), id)
  {
    assert n.down[0] in n.down;
    assert Pipe(n.(down := n.down[1..])) == Pipe(n);
  }

  lemma OkayElsewhere(n: Net, id: u32)
    requires HostOk(n) && 1 <= id && Inv(n, id)
    requires n.down != [] && n.down[0].command == Okay && n.down[0].arg1 in n.host.streams && n.down[0].arg1 != id
    ensures HostOk(Noted(n)) && Inv(Noted(n), id)
  {
    assert Pipe(Noted(n)) == Pipe(n);
    assert SameFor(n, Noted(n), id);
    SameKeeps(n, Noted(n), id);
  }

  /** The OKAY was the one credit out: with it in, the stream may be flushed. */
  lemma OkayHere(n: Net, id: u32)
    requires HostOk(n) && 1 <= id && Inv(n, id) && id in n.host.streams
    requires n.down != [] && n.down[0].command == Okay && n.down[0].arg1 == id
    ensures HostOk(Noted(n)) && Ready(Noted(n), id)
  {
    OkayHereAddressed(n, id);
    OkayClears(n.host.streams[id], n.device[id], DataOn(Pipe(n), id), CreditsOn(Pipe(n), id), OkaysOn(n.down[1..], id),
               GivenTo(n, id));
    assert Pipe(Noted(n)) == Pipe(n);
  }

  lemma OkayHereAddressed(n: Net, id: u32)
    requires Addressed(n, id) && id in n.host.streams
    requires n.down != [] && n.down[0].command == Okay && n.down[0].arg1 == id
    ensures id in n.device && Addressed(Noted(n), id)
  {
    assert n.down[0] in n.down;
    assert Pipe(Noted(n)) == Pipe(n);
  }

  lemma OkayClears(s: Stream, d: DeviceStream, data: seq<byte>, credits: nat, okays: nat, given: seq<byte>)
    requires Account(Some(s), Some(d), data, credits, 1 + okays, given)
    ensures if d.closed then d.received <= given
            else d.received + data + s.outbox == given && credits == 0 && d.owed == 0 && okays == 0
  {
  }

  lemma DeliverData(n: Net, q: Packet, id: u32)
    requires HostOk(n) && 1 <= id && Inv(n, id) && q.command == Wrte
    ensures var n' := n.(host := PacketOutcome(n.host, q).0); HostOk(n') && Inv(n', id)
  {
    var n' := n.(host := PacketOutcome(n.host, q).0);
    if q.arg1 in n.host.streams {
      assert SameFor(n, n', id);
      SameKeeps(n, n', id);
    } else {
      GrowsElsewhere(n, n', Packet(Clse, 0, q.arg0, []), id);
    }
  }

  lemma DeliverClose(n: Net, q: Packet, id: u32)
    requires HostOk(n) && 1 <= id && Inv(n, id) && q.command == Clse
    ensures var n' := n.(host := PacketOutcome(n.host, q).0); HostOk(n') && Inv(n', id)
  {
    var n' := n.(host := PacketOutcome(n.host, q).0);
    assert Pipe(n') == Pipe(n);
    if q.arg1 != id {
      assert SameFor(n, n', id);
      SameKeeps(n, n', id);
    }
  }

  // ---- Moves of the device ----

  lemma TakeKeeps(n: Net, accept: bool, remoteId: u32, id: u32)
    requires HostOk(n) && 1 <= id && Inv(n, id) && n.up != []
    ensures Inv(Taken(n, accept, remoteId), id)
  {
    if n.up[0].arg0 != id {
      TakeElsewhere(n, accept, remoteId, id);
    } else {
      TakeHere(n, accept, remoteId, id);
    }
  }

  lemma TakeHere(n: Net, accept: bool, remoteId: u32, id: u32)
    requires HostOk(n) && 1 <= id && Inv(n, id) && n.up != [] && n.up[0].arg0 == id
    ensures Inv(Taken(n, accept, remoteId), id)
  {
    if n.up[0].command == Open {
      TakeOpen(n, accept, remoteId, id);
    } else if n.up[0].command == Wrte {
      TakeWrite(n, accept, remoteId, id);
    } else {
      TakeOther(n, accept, remoteId, id);
    }
  }

  lemma TakeElsewhere(n: Net, accept: bool, remoteId: u32, id: u32)
    requires HostOk(n) && 1 <= id && Inv(n, id) && n.up != [] && n.up[0].arg0 != id
    ensures Inv(Taken(n, accept, remoteId), id)
  {
    TakenElsewhere(n, accept, remoteId, id);
    GoneElsewhere(n, Taken(n, accept, remoteId), Packet(Clse, 0, n.up[0].arg0, []), id);
  }

  lemma TakenElsewhere(n: Net, accept: bool, remoteId: u32, id: u32)
    requires n.up != [] && n.up[0].arg0 != id
    ensures var n' := Taken(n, accept, remoteId);
            && (n'.down == n.down || n'.down == n.down + [Packet(Clse, 0, n.up[0].arg0, [])])
            && DeviceOn(n', id) == DeviceOn(n, id)
  {
  }

  /** A packet for another stream has left the pipe, with or without an answer. */
  lemma GoneElsewhere(n: Net, n': Net, answer: Packet, id: u32)
    requires Inv(n, id) && n.up != [] && n.up[0].arg0 != id && answer.arg1 != id
    requires n'.up == n.up[1..] && n'.host == n.host && n'.given == n.given && DeviceOn(n', id) == DeviceOn(n, id)
    requires n'.down == n.down || n'.down == n.down + [answer]
    ensures Inv(n', id)
  {
    HeadOfPipe(n, n', id);
    OnAppend(n.down, answer, id);
    assert SameFor(n, n', id);
    SameKeeps(n, n', id);
  }

  lemma TakeOther(n: Net, accept: bool, remoteId: u32, id: u32)
    requires HostOk(n) && 1 <= id && Inv(n, id) && n.up != [] && n.up[0].arg0 == id
    requires n.up[0].command != Open && n.up[0].command != Wrte
    ensures Inv(Taken(n, accept, remoteId), id)
  {
    var n' := Taken(n, accept, remoteId);
    HeadOfPipe(n, n', id);
    if n'.device == n.device {
      assert SameFor(n, n', id);
      SameKeeps(n, n', id);
    } else {
      assert id in n.device && n'.device == n.device[id := n.device[id].(closed := true)] && n'.down == n.down;
    }
  }

  lemma TakeOpen(n: Net, accept: bool, remoteId: u32, id: u32)
    requires HostOk(n) && 1 <= id && Inv(n, id) && n.up != [] && n.up[0].command == Open && n.up[0].arg0 == id
    ensures Inv(Taken(n, accept, remoteId), id)
  {
    var p := n.up[0];
    var n' := Taken(n, accept, remoteId);
    HeadOfPipe(n, n', id);
    NoCredits(Pipe(n'), id);
    OnAppend(n.down, Packet(Clse, 0, id, []), id);
  }

  lemma HeadOfPipe(n: Net, n': Net, id: u32)
    requires n.up != [] && n'.up == n.up[1..] && n'.host.transmit == n.host.transmit
    ensures n.up[0] in Pipe(n) && Pipe(n) == [n.up[0]] + Pipe(n')
    ensures var p := n.up[0];
            && DataOn(Pipe(n), id) ==
                 (if p.command == Wrte && p.arg0 == id then p.payload + DataOn(Pipe(n'), id) else DataOn(Pipe(n'), id))
            && CreditsOn(Pipe(n), id) ==
                 (if p.command in {Open, Wrte} && p.arg0 == id then 1 else 0) + CreditsOn(Pipe(n'), id)
    ensures forall x <- Pipe(n') :: x in Pipe(n)
  {
    assert Pipe(n) == [n.up[0]] + Pipe(n');
    assert Pipe(n)[1..] == Pipe(n');
  }

  lemma TakeWrite(n: Net, accept: bool, remoteId: u32, id: u32)
    requires HostOk(n) && 1 <= id && Inv(n, id) && n.up != [] && n.up[0].command == Wrte && n.up[0].arg0 == id
    ensures Inv(Taken(n, accept, remoteId), id)
  {
    var p := n.up[0];
    var n' := Taken(n, accept, remoteId);
    HeadOfPipe(n, n', id);
    var received := ReceivedBy(DeviceOn(n, id));
    assert received + (p.payload + DataOn(Pipe(n'), id)) == received + p.payload + DataOn(Pipe(n'), id);
  }

  lemma DeviceElsewhere(n: Net, m: Move, id: u32)
    requires HostOk(n) && 1 <= id && Inv(n, id) && Enabled(n, m)
    requires (m.DeviceOkay? || m.DeviceData? || m.DeviceClose?) && m.id != id
    ensures Inv(Next(n, m), id)
  {
    DownGrows(n, Next(n, m), Next(n, m).down[|n.down|], id);
  }

  /** The device queues a packet for another stream. */
  lemma DownGrows(n: Net, n': Net, p: Packet, id: u32)
    requires Inv(n, id) && p.arg1 != id
    requires n'.up == n.up && n'.host == n.host && n'.given == n.given && n'.down == n.down + [p]
    requires DeviceOn(n', id) == DeviceOn(n, id)
    ensures Inv(n', id)
  {
    OnAppend(n.down, p, id);
    assert Pipe(n') == Pipe(n);
    assert SameFor(n, n', id);
    SameKeeps(n, n', id);
  }

  lemma DeviceHere(n: Net, m: Move, id: u32)
    requires HostOk(n) && 1 <= id && Inv(n, id) && Enabled(n, m)
    requires (m.DeviceOkay? || m.DeviceData? || m.DeviceClose?) && m.id == id
    ensures Inv(Next(n, m), id)
  {
    var n' := Next(n, m);
    OnAppend(n.down, n'.down[|n.down|], id);
    assert Pipe(n') == Pipe(n);
  }

  lemma DeviceKeeps(n: Net, m: Move, id: u32)
    requires HostOk(n) && 1 <= id && Inv(n, id) && Enabled(n, m)
    requires m.DeviceOkay? || m.DeviceData? || m.DeviceClose?
    ensures HostOk(Next(n, m)) && Inv(Next(n, m), id)
  {
    if m.id == id {
      DeviceHere(n, m, id);
    } else {
      DeviceElsewhere(n, m, id);
    }
  }

  lemma MoveKeeps(n: Net, m: Move, id: u32)
    requires HostOk(n) && 1 <= id && Inv(n, id) && Enabled(n, m)
    ensures HostOk(Next(n, m)) && Inv(Next(n, m), id)
  {
    match m
    case HostOpen(service) => HostOpenKeeps(n, service, id);
    case HostWrite(i, data) => HostWriteKeeps(n, i, data, id);
    case HostAck(i) => HostAckKeeps(n, i, id);
    case HostClose(i) => HostCloseKeeps(n, i, id);
    case Transmit => TransmitKeeps(n, id);
    case Deliver => DeliverKeeps(n, id);
    case DeviceTake(accept, remoteId) =>
      TakeKeeps(n, accept, remoteId, id);
      assert Next(n, m) == Taken(n, accept, remoteId);
    case DeviceOkay(_) => DeviceKeeps(n, m, id);
    case DeviceData(_, _) => DeviceKeeps(n, m, id);
    case DeviceClose(_) => DeviceKeeps(n, m, id);
  }

  // ---- Whole runs, towards the device ----

  lemma InitialInv(n: Net, id: u32)
    requires Initial(n) && 1 <= id
    ensures HostOk(n) && Inv(n, id)
  {
  }

  lemma {:induction false} RunsKeep(n: Net, moves: seq<Move>, id: u32)
    requires HostOk(n) && 1 <= id && Inv(n, id) && Legal(n, moves)
    ensures HostOk(After(n, moves)) && Inv(After(n, moves), id)
    decreases |moves|
  {
    if moves != [] {
      MoveKeeps(n, moves[0], id);
      RunsKeep(Next(n, moves[0]), moves[1..], id);
    }
  }

  lemma {:induction false} NoCreditsNoData(ps: seq<Packet>, id: u32)
    requires CreditsOn(ps, id) == 0
    ensures DataOn(ps, id) == []
  {
    if ps != [] {
      NoCreditsNoData(ps[1..], id);
    }
  }

  /**
   In every reachable state, for every stream: the device has received a prefix of the bytes written; while the stream
   is open at both ends the received bytes, then those on their way, then those queued are exactly the bytes written,
   a credit is out exactly when the open or a write is unanswered, and when none is out everything has arrived.
   */
  lemma NothingLostUpwards(start: Net, moves: seq<Move>, id: u32)
    requires Initial(start) && Legal(start, moves) && 1 <= id
    ensures var n := After(start, moves);
            && ReceivedBy(DeviceOn(n, id)) <= GivenTo(n, id)
            && (id in n.host.streams && !ClosedBy(DeviceOn(n, id)) ==>
                  var s := n.host.streams[id];
                  && ReceivedBy(DeviceOn(n, id)) + DataOn(n.up + n.host.transmit, id) + s.outbox == GivenTo(n, id)
                  && CreditsOn(n.up + n.host.transmit, id) + OwedBy(DeviceOn(n, id)) + OkaysOn(n.down, id)
                       == (if s.remoteId.None? || s.writeInFlight then 1 else 0)
                  && (s.remoteId.Some? && !s.writeInFlight ==> ReceivedBy(DeviceOn(n, id)) == GivenTo(n, id)))
  {
    InitialInv(start, id);
    RunsKeep(start, moves, id);
    var n := After(start, moves);
    if CreditsOn(Pipe(n), id) == 0 {
      NoCreditsNoData(Pipe(n), id);
    }
  }

  // ---- Whole runs, towards the host ----

  /** The bytes raised on a stream, in order. */
  function RaisedOn(events: seq<Event>, id: u32): seq<byte> {
    if events == [] then []
    else if events[0].StreamData? && events[0].localId == id then events[0].data + RaisedOn(events[1..], id)
    else RaisedOn(events[1..], id)
  }

  lemma {:induction false} RaisedAppend(events: seq<Event>, e: Event, id: u32)
    ensures RaisedOn(events + [e], id) ==
            if e.StreamData? && e.localId == id then RaisedOn(events, id) + e.data else RaisedOn(events, id)
  {
    if events == [] {
      assert [e][1..] == [];
    } else {
      assert (events + [e])[1..] == events[1..] + [e];
      RaisedAppend(events[1..], e, id);
    }
  }

  /** The bytes on their way down a stream. */
  function DownOn(ps: seq<Packet>, id: u32): seq<byte> {
    if ps == [] then []
    else if ps[0].command == Wrte && ps[0].arg1 == id then ps[0].payload + DownOn(ps[1..], id)
    else DownOn(ps[1..], id)
  }

  lemma {:induction false} DownAppend(ps: seq<Packet>, p: Packet, id: u32)
    ensures DownOn(ps + [p], id) ==
            if p.command == Wrte && p.arg1 == id then DownOn(ps, id) + p.payload else DownOn(ps, id)
  {
    if ps == [] {
      assert [p][1..] == [];
    } else {
      assert (ps + [p])[1..] == ps[1..] + [p];
      DownAppend(ps[1..], p, id);
    }
  }

  lemma {:induction false} DownQuiet(ps: seq<Packet>, id: u32)
    ensures (forall p <- ps :: p.arg1 != id) ==> DownOn(ps, id) == []
  {
    if ps != [] {
      assert ps[0] in ps;
      DownQuiet(ps[1..], id);
    }
  }

  function SentBy(d: Option<DeviceStream>): seq<byte> {
    if d.Some? then d.value.sent else []
  }

  predicate Downward(n: Net, id: u32) {
    if id in n.host.streams || id >= n.host.nextLocalId
    then RaisedOn(n.host.events, id) + DownOn(n.down, id) == SentBy(DeviceOn(n, id))
    else RaisedOn(n.host.events, id) <= SentBy(DeviceOn(n, id))
  }

  /** A host operation raises nothing. */
  lemma HostQuiet(n: Net, m: Move, id: u32)
    requires HostOk(n) && 1 <= id && Downward(n, id) && Enabled(n, m)
    requires m.HostOpen? || m.HostWrite? || m.HostAck? || m.HostClose? || m.Transmit?
    ensures Downward(Next(n, m), id)
  {
    assert Next(n, m).host.events == n.host.events;
  }

  /** What a packet does to the presence of a stream and to the events raised on it. */
  predicate Raises(c: Core, q: Packet, next: Core, id: u32) {
    && next.nextLocalId == c.nextLocalId
    && (id in next.streams <==> id in c.streams && !(q.command == Clse && q.arg1 == id))
    && RaisedOn(next.events, id) ==
         if q.command == Wrte && q.arg1 == id && id in c.streams then RaisedOn(c.events, id) + q.payload
         else RaisedOn(c.events, id)
  }

  lemma PacketRaises(c: Core, q: Packet, id: u32)
    requires c.state == Connected
    ensures Raises(c, q, PacketOutcome(c, q).0, id)
  {
    if q.command == Okay {
      OkayRaises(c, q, id);
    } else {
      RaisedAppend(c.events, StreamData(q.arg1, q.payload), id);
      RaisedAppend(c.events, StreamClosed(q.arg1), id);
    }
  }

  lemma OkayRaises(c: Core, q: Packet, id: u32)
    requires c.state == Connected && q.command == Okay
    ensures Raises(c, q, OnOkay(c, q.arg0, q.arg1), id)
  {
    RaisedAppend(c.events, StreamOpened(q.arg1), id);
  }

  /** No packet reaches the host for a stream that it has not opened. */
  lemma HeadIsKnown(n: Net, id: u32)
    requires Inv(n, id) && n.down != [] && id >= n.host.nextLocalId
    ensures n.down[0].arg1 != id
  {
    assert n.down[0] in n.down;
  }

  lemma DeliverDownward(n: Net, id: u32)
    requires HostOk(n) && Downward(n, id) && n.down != []
    requires id >= n.host.nextLocalId ==> n.down[0].arg1 != id
    ensures Downward(Next(n, Deliver), id)
  {
    PacketRaises(n.host, n.down[0], id);
    RaisedDownward(n, PacketOutcome(n.host, n.down[0]).0, id);
  }

  lemma RaisedDownward(n: Net, next: Core, id: u32)
    requires HostOk(n) && Downward(n, id) && n.down != []
    requires id >= n.host.nextLocalId ==> n.down[0].arg1 != id
    requires Raises(n.host, n.down[0], next, id)
    ensures Downward(n.(down := n.down[1..], host := next), id)
  {
    var q, rest := n.down[0], n.down[1..];
    if q.command == Wrte && q.arg1 == id {
      Regrouped(RaisedOn(n.host.events, id), q.payload, DownOn(rest, id));
    }
  }

  lemma TakeDownward(n: Net, accept: bool, remoteId: u32, id: u32)
    requires Downward(n, id) && n.up != []
    ensures Downward(Taken(n, accept, remoteId), id)
  {
    DownAppend(n.down, Packet(Clse, 0, n.up[0].arg0, []), id);
    assert SentBy(DeviceOn(Taken(n, accept, remoteId), id)) == SentBy(DeviceOn(n, id));
  }

  lemma DeviceDownward(n: Net, m: Move, id: u32)
    requires HostOk(n) && 1 <= id && Downward(n, id) && Enabled(n, m)
    requires m.DeviceOkay? || m.DeviceData? || m.DeviceClose?
    ensures Downward(Next(n, m), id)
  {
    var n' := Next(n, m);
    DownAppend(n.down, n'.down[|n.down|], id);
    if m.DeviceData? && m.id == id {
      Regrouped(RaisedOn(n.host.events, id), DownOn(n.down, id), m.data);
      assert SentBy(DeviceOn(n', id)) == SentBy(DeviceOn(n, id)) + m.data;
    } else {
      assert SentBy(DeviceOn(n', id)) == SentBy(DeviceOn(n, id));
    }
  }

  lemma {:induction false} RunsKeepDownward(n: Net, moves: seq<Move>, id: u32)
    requires HostOk(n) && 1 <= id && Inv(n, id) && Downward(n, id) && Legal(n, moves)
    ensures Downward(After(n, moves), id)
    decreases |moves|
  {
    if moves != [] {
      var m := moves[0];
      MoveKeeps(n, m, id);
      if m.Deliver? {
        if id >= n.host.nextLocalId {
          HeadIsKnown(n, id);
        }
        DeliverDownward(n, id);
      } else if m.DeviceTake? {
        TakeDownward(n, m.accept, m.remoteId, id);
      } else if m.DeviceOkay? || m.DeviceData? || m.DeviceClose? {
        DeviceDownward(n, m, id);
      } else {
        HostQuiet(n, m, id);
      }
      RunsKeepDownward(Next(n, m), moves[1..], id);
    }
  }

  lemma {:induction false} NoDataRaised(events: seq<Event>, id: u32)
    requires forall e <- events :: !e.StreamData?
    ensures RaisedOn(events, id) == []
  {
    if events != [] {
      assert events[0] in events;
      NoDataRaised(events[1..], id);
    }
  }

  /** The other direction: what is raised on a stream, then what is on its way, is what the device sent on it. */
  lemma NothingLostDownwards(start: Net, moves: seq<Move>, id: u32)
    requires Initial(start) && Legal(start, moves) && 1 <= id
    ensures var n := After(start, moves);
            && RaisedOn(n.host.events, id) <= SentBy(DeviceOn(n, id))
            && (id in n.host.streams ==> RaisedOn(n.host.events, id) + DownOn(n.down, id) == SentBy(DeviceOn(n, id)))
  {
    InitialInv(start, id);
    NoDataRaised(start.host.events, id);
    RunsKeepDownward(start, moves, id);
  }
}
