/**
 End-to-end reliability on a byte channel (adb_proto/src/session.rs:161-167; adb_proto/src/message.rs:79-184).  The
 device's packets travel to the session as bytes, and arrive in pieces of any sizes.  Whatever the pieces, every run
 is a run of the net of packets in `Reliability`, so that what is proved there holds here.
 */
module Wire {
  import opened Bytes
  import opened Message
  import opened Incremental
  import opened Session
  import opened Reliability

  /** The net without its packets on the way down: bytes on the wire, and bytes arrived and not yet decoded. */
  datatype Wired = Wired(
    host: Core,
    up: seq<Packet>,
    wire: seq<byte>,
    unread: seq<byte>,
    device: map<u32, DeviceStream>,
    given: map<u32, seq<byte>>)

  /** A move of the net other than a delivery, or the arrival of some bytes. */
  datatype Move = NetMove(move: Reliability.Move) | Arrive(count: nat)

  function Unwired(w: Wired, down: seq<Packet>): Net {
    Net(w.host, w.up, down, w.device, w.given)
  }

  /** The device keeps to the maximum that the session announced. */
  predicate Enabled(w: Wired, m: Move) {
    match m
    case Arrive(count) => count <= |w.wire|
    case NetMove(move) =>
      && !move.Deliver? && Reliability.Enabled(Unwired(w, []), move)
      && (move.DeviceData? ==> |move.data| <= w.host.config.maxPayload)
  }

  predicate Modest(ps: seq<Packet>, max: u32) {
    forall p <- ps :: |p.payload| <= max && p.command in {Okay, Wrte, Clse}
  }

  lemma SendsModest(w: Wired, move: Reliability.Move)
    requires Enabled(w, NetMove(move))
    ensures Modest(Reliability.Next(Unwired(w, []), move).down, w.host.config.maxPayload)
  {
  }

  ghost function Next(w: Wired, m: Move): Wired
    requires Enabled(w, m)
  {
    match m
    case Arrive(count) =>
      var o := InputOutcome(w.host, w.unread, w.wire[..count]);
      w.(host := o.state, unread := o.rest, wire := w.wire[count..])
    case NetMove(move) =>
      SendsModest(w, move);
      var n := Reliability.Next(Unwired(w, []), move);
      Wired(n.host, n.up, w.wire + EncodeAll(n.down), w.unread, n.device, n.given)
  }

  ghost predicate Legal(w: Wired, moves: seq<Move>)
    decreases |moves|
  {
    moves == [] || (Enabled(w, moves[0]) && Legal(Next(w, moves[0]), moves[1..]))
  }

  ghost function After(w: Wired, moves: seq<Move>): Wired
    requires Legal(w, moves)
    decreases |moves|
  {
    if moves == [] then w else After(Next(w, moves[0]), moves[1..])
  }

  // ---- Bytes and packets ----

  /** The packets on their way down are those whose bytes have not been decoded yet. */
  predicate Carries(w: Wired, down: seq<Packet>) {
    && w.host.state == Connected
    && Modest(down, w.host.config.maxPayload)
    && w.unread + w.wire == EncodeAll(down)
  }

  /** A packet of which bytes are missing is not decoded. */
  lemma PartIsNotEnough(p: Packet, tail: seq<byte>, part: seq<byte>, missing: seq<byte>, max: u32, verify: bool)
    requires |p.payload| <= max && part + missing == Encode(p) + tail && |part| < |Encode(p)|
    ensures Parse(part, max, verify) == NeedMore
  {
    ParseOfEncode(p, tail, max, verify);
    ParseIsPrompt(part, missing, max, verify);
  }

  lemma WholeIsEnough(p: Packet, tail: seq<byte>, part: seq<byte>, missing: seq<byte>, max: u32, verify: bool)
    requires |p.payload| <= max && part + missing == Encode(p) + tail && |part| >= |Encode(p)|
    ensures Parse(part, max, verify) == Got(|Encode(p)|, p) && part[|Encode(p)|..] + missing == tail
  {
    var n := |Encode(p)|;
    assert (part + missing)[..n] == part[..n] && (Encode(p) + tail)[..n] == Encode(p);
    assert (part + missing)[n..] == part[n..] + missing && (Encode(p) + tail)[n..] == tail;
    ParseOfEncode(p, part[n..], max, verify);
    assert part == part[..n] + part[n..];
  }

  /** The session after the first `k` of some packets. */
  function Handled(c: Core, ps: seq<Packet>, k: nat): Core
    requires k <= |ps|
    decreases k
  {
    if k == 0 then c else Handled(PacketOutcome(c, ps[0]).0, ps[1..], k - 1)
  }

  lemma TrafficIsHandled(c: Core, p: Packet)
    requires c.state == Connected && p.command in {Okay, Wrte, Clse}
    ensures var (next, error) := PacketOutcome(c, p); error.None? && next.state == Connected && next.config == c.config
  {
  }

  lemma DrainNothing(c: Core, p: Packet, tail: seq<byte>, part: seq<byte>, missing: seq<byte>)
    requires |p.payload| <= c.config.maxPayload && part + missing == Encode(p) + tail && |part| < |Encode(p)|
    ensures Prompt(InputStep) && Drain(InputStep, c, part) == Outcome(c, part, None)
  {
    InputTurn(c, part);
    PartIsNotEnough(p, tail, part, missing, c.config.maxPayload, c.verifyChecksum);
  }

  lemma DrainFirst(c: Core, p: Packet, tail: seq<byte>, part: seq<byte>, missing: seq<byte>)
    requires c.state == Connected && |p.payload| <= c.config.maxPayload && p.command in {Okay, Wrte, Clse}
    requires part + missing == Encode(p) + tail && |part| >= |Encode(p)|
    ensures var next := PacketOutcome(c, p).0; var rest := part[|Encode(p)|..];
            && Prompt(InputStep) && Drain(InputStep, c, part) == Drain(InputStep, next, rest)
            && next.state == Connected && next.config == c.config && rest + missing == tail
  {
    InputTurn(c, part);
    WholeIsEnough(p, tail, part, missing, c.config.maxPayload, c.verifyChecksum);
    TrafficIsHandled(c, p);
  }

  /** What draining some arrived bytes comes to: the first `k` packets handled, the rest not yet there. */
  ghost predicate Comes(c: Core, ps: seq<Packet>, part: seq<byte>, missing: seq<byte>, k: nat)
    requires Prompt(InputStep) && forall p <- ps :: |p.payload| <= U32_MAX
  {
    var o := Drain(InputStep, c, part);
    && k <= |ps|
    && o.error == None && o.state == Handled(c, ps, k)
    && o.rest + missing == EncodeAll(ps[k..])
    && o.state.state == Connected && o.state.config == c.config
  }

  /** Draining the bytes that have arrived handles the packets that are whole, and leaves the rest. */
  lemma {:induction false} DrainHandles(c: Core, ps: seq<Packet>, part: seq<byte>, missing: seq<byte>) returns (k: nat)
    requires c.state == Connected && Modest(ps, c.config.maxPayload) && part + missing == EncodeAll(ps)
    ensures Prompt(InputStep) && Comes(c, ps, part, missing, k)
    decreases |ps|
  {
    if ps == [] {
      k := 0;
      InputTurn(c, part);
      assert part == [] && Parse([], c.config.maxPayload, c.verifyChecksum) == NeedMore;
    } else if |part| < |Encode(ps[0])| {
      k := 0;
      DrainNothing(c, ps[0], EncodeAll(ps[1..]), part, missing);
      assert ps[0..] == ps;
    } else {
      DrainFirst(c, ps[0], EncodeAll(ps[1..]), part, missing);
      var j := DrainHandles(PacketOutcome(c, ps[0]).0, ps[1..], part[|Encode(ps[0])|..], missing);
      k := j + 1;
      assert ps[1..][j..] == ps[k..];
    }
  }

  // ---- Every byte run is a packet run ----

  function Deliveries(k: nat): seq<Reliability.Move> {
    if k == 0 then [] else [Deliver] + Deliveries(k - 1)
  }

  lemma {:induction false} DeliveriesHandle(n: Net, k: nat)
    requires k <= |n.down|
    ensures Reliability.Legal(n, Deliveries(k))
    ensures Reliability.After(n, Deliveries(k)) == n.(host := Handled(n.host, n.down, k), down := n.down[k..])
    decreases k
  {
    if k > 0 {
      var next := Reliability.Next(n, Deliver);
      DeliveriesHandle(next, k - 1);
      assert Deliveries(k)[1..] == Deliveries(k - 1);
      assert n.down[1..][k - 1..] == n.down[k..];
    }
  }

  lemma {:induction false} RunsJoin(n: Net, first: seq<Reliability.Move>, rest: seq<Reliability.Move>)
    requires Reliability.Legal(n, first) && Reliability.Legal(Reliability.After(n, first), rest)
    ensures Reliability.Legal(n, first + rest)
    ensures Reliability.After(n, first + rest) == Reliability.After(Reliability.After(n, first), rest)
    decreases |first|
  {
    if first == [] {
      assert [] + rest == rest;
    } else {
      assert (first + rest)[1..] == first[1..] + rest;
      RunsJoin(Reliability.Next(n, first[0]), first[1..], rest);
    }
  }

  /** Nothing but a delivery looks at the packets on their way down; others are put behind them. */
  lemma OthersLookAway(w: Wired, down: seq<Packet>, move: Reliability.Move)
    requires !move.Deliver? && Reliability.Enabled(Unwired(w, []), move)
    ensures Reliability.Enabled(Unwired(w, down), move)
    ensures var n := Reliability.Next(Unwired(w, []), move);
            Reliability.Next(Unwired(w, down), move) == n.(down := down + n.down)
  {
  }

  lemma HostStays(w: Wired, move: Reliability.Move)
    requires !move.Deliver? && Reliability.Enabled(Unwired(w, []), move)
    ensures var n := Reliability.Next(Unwired(w, []), move);
            n.host.state == w.host.state && n.host.config == w.host.config
  {
  }

  lemma {:induction false} EncodeAllAppend(a: seq<Packet>, b: seq<Packet>)
    requires forall p <- a + b :: |p.payload| <= U32_MAX
    requires forall p <- a :: |p.payload| <= U32_MAX
    requires forall p <- b :: |p.payload| <= U32_MAX
    ensures EncodeAll(a + b) == EncodeAll(a) + EncodeAll(b)
  {
    if a == [] {
      assert a + b == b;
    } else {
      assert (a + b)[1..] == a[1..] + b;
      EncodeAllAppend(a[1..], b);
      Regrouped(Encode(a[0]), EncodeAll(a[1..]), EncodeAll(b));
    }
  }

  lemma NetMoveSimulated(w: Wired, down: seq<Packet>, move: Reliability.Move) returns (more: seq<Packet>)
    requires Carries(w, down) && Enabled(w, NetMove(move))
    ensures Reliability.Enabled(Unwired(w, down), move)
    ensures Reliability.Next(Unwired(w, down), move) == Unwired(Next(w, NetMove(move)), more)
    ensures Carries(Next(w, NetMove(move)), more)
  {
    var sent := Reliability.Next(Unwired(w, []), move).down;
    more := down + sent;
    SendsModest(w, move);
    OthersLookAway(w, down, move);
    HostStays(w, move);
    EncodeAllAppend(down, sent);
    Regrouped(w.unread, w.wire, EncodeAll(sent));
  }

  lemma ArrivalSimulated(w: Wired, down: seq<Packet>, count: nat) returns (k: nat)
    requires Carries(w, down) && count <= |w.wire|
    ensures k <= |down|
    ensures Reliability.Legal(Unwired(w, down), Deliveries(k))
    ensures Reliability.After(Unwired(w, down), Deliveries(k)) == Unwired(Next(w, Arrive(count)), down[k..])
    ensures Carries(Next(w, Arrive(count)), down[k..])
    ensures InputOutcome(w.host, w.unread, w.wire[..count]).error == None
  {
    var part, missing := w.unread + w.wire[..count], w.wire[count..];
    Regrouped(w.unread, w.wire[..count], missing);
    assert w.wire[..count] + missing == w.wire;
    k := DrainHandles(w.host, down, part, missing);
    DeliveriesHandle(Unwired(w, down), k);
  }

  /**
   Every run on bytes is a run on packets, to the same state of host and device, with what is not decoded on its way.
   */
  lemma {:induction false} Simulated(w: Wired, down: seq<Packet>, moves: seq<Move>)
    returns (steps: seq<Reliability.Move>, left: seq<Packet>)
    requires Carries(w, down) && Legal(w, moves)
    ensures Reliability.Legal(Unwired(w, down), steps)
    ensures Reliability.After(Unwired(w, down), steps) == Unwired(After(w, moves), left)
    ensures Carries(After(w, moves), left)
    decreases |moves|
  {
    if moves == [] {
      steps, left := [], down;
    } else {
      var next := Next(w, moves[0]);
      match moves[0]
      case NetMove(move) =>
        var more := NetMoveSimulated(w, down, move);
        var rest;
        rest, left := Simulated(next, more, moves[1..]);
        steps := [move] + rest;
        assert steps[1..] == rest;
      case Arrive(count) =>
        var k := ArrivalSimulated(w, down, count);
        var rest;
        rest, left := Simulated(next, down[k..], moves[1..]);
        steps := Deliveries(k) + rest;
        RunsJoin(Unwired(w, down), Deliveries(k), rest);
    }
  }

  // ---- What holds on the wire ----

  predicate Initial(w: Wired) {
    Reliability.Initial(Unwired(w, [])) && w.wire == [] && w.unread == []
  }

  /**
   Over all interleavings and all cuts of the bytes: the device has received a prefix of what was written; while a
   stream is open at both ends the received bytes, those in transit and those queued are the bytes written, and when
   no write is in flight all has arrived.  In the other direction, what was raised and what the bytes not yet decoded
   hold is what the device sent.  `down` is what those bytes decode to.
   */
  lemma NothingLostOnTheWire(start: Wired, moves: seq<Move>, id: u32) returns (down: seq<Packet>)
    requires Initial(start) && Legal(start, moves) && 1 <= id
    ensures Carries(After(start, moves), down)
    ensures var w := After(start, moves); var d := DeviceOn(Unwired(w, down), id);
            && ReceivedBy(d) <= GivenTo(Unwired(w, down), id)
            && (id in w.host.streams && !ClosedBy(d) ==>
                  var s := w.host.streams[id];
                  && ReceivedBy(d) + DataOn(w.up + w.host.transmit, id) + s.outbox == GivenTo(Unwired(w, down), id)
                  && (s.remoteId.Some? && !s.writeInFlight ==> ReceivedBy(d) == GivenTo(Unwired(w, down), id)))
            && (id in w.host.streams ==> RaisedOn(w.host.events, id) + DownOn(down, id) == SentBy(d))
            && RaisedOn(w.host.events, id) <= SentBy(d)
  {
    var steps;
    assert EncodeAll([]) == [];
    steps, down := Simulated(start, [], moves);
    NothingLostUpwards(Unwired(start, []), steps, id);
    NothingLostDownwards(Unwired(start, []), steps, id);
  }
}
