/**
 What a session guarantees over whole runs against an arbitrary peer (adb_proto/src/session.rs).

 A run is any sequence of calls of the public interface, with any bytes as input.  Its log records the packets
 received, the events raised and the packets sent, in order.  Two monitors read the log: one knows the protocol of a
 single stream, the other that of the handshake.  No run makes either of them complain.
 */
module Lifecycle {
  import opened Bytes
  import opened Message
  import opened Incremental
  import opened Session

  // ---- Runs ----

  datatype Op =
    | DoStart
    | DoOpen(service: seq<byte>)
    | DoWrite(id: u32, data: seq<byte>)
    | DoAck(id: u32)
    | DoClose(id: u32)
    | DoInput(bytes: seq<byte>)
    | DoPollTransmit
    | DoPollEvent

  datatype Entry = In(packet: Packet) | Up(event: Event) | Out(packet: Packet)

  datatype Run = Run(core: Core, unread: seq<byte>, polled: seq<Packet>, seen: seq<Event>, log: seq<Entry>)

  function Noted(log: seq<Entry>, e: Option<Entry>): seq<Entry> {
    if e.Some? then log + [e.value] else log
  }

  /** The event raised on the way from `c` to `next`, if any. */
  function NewEvent(c: Core, next: Core): Option<Entry> {
    if |next.events| > |c.events| then Some(Up(next.events[|c.events|])) else None
  }

  function NewPacket(c: Core, next: Core): Option<Entry> {
    if |next.transmit| > |c.transmit| then Some(Out(next.transmit[|c.transmit|])) else None
  }

  function Advance(r: Run, got: Option<Entry>, next: Core): Run {
    r.(core := next, log := Noted(Noted(Noted(r.log, got), NewEvent(r.core, next)), NewPacket(r.core, next)))
  }

  /** The input loop with every packet noted. */
  function Consume(r: Run): Run
    decreases |r.unread|
  {
    match Parse(r.unread, r.core.config.maxPayload, r.core.verifyChecksum)
    case NeedMore => r
    case Bad(n, _) =>
      ParseIsPrompt(r.unread, [], r.core.config.maxPayload, r.core.verifyChecksum);
      r.(unread := r.unread[n..])
    case Got(n, p) =>
      ParseIsPrompt(r.unread, [], r.core.config.maxPayload, r.core.verifyChecksum);
      var (next, error) := PacketOutcome(r.core, p);
      var after := Advance(r.(unread := r.unread[n..]), Some(In(p)), next);
      if error.Some? then after else Consume(after)
  }

  /** Identifiers do not run out.  The session may be started any number of times. */
  predicate Allowed(r: Run, op: Op) {
    op.DoOpen? ==> r.core.nextLocalId < U32_MAX
  }

  function Do(r: Run, op: Op): Run {
    match op
    case DoStart => Advance(r, None, Started(r.core))
    case DoOpen(service) =>
      (match Opened(r.core, service)
       case Err(_) => r
       case Ok((next, _)) => Advance(r, None, next))
    case DoWrite(id, data) =>
      (match Written(r.core, id, data)
       case Err(_) => r
       case Ok(next) => Advance(r, None, next))
    case DoAck(id) => Advance(r, None, Acked(r.core, id))
    case DoClose(id) => Advance(r, None, Closed(r.core, id))
    case DoInput(bytes) => Consume(r.(unread := r.unread + bytes))
    case DoPollTransmit =>
      if r.core.transmit == [] then r
      else r.(polled := r.polled + [r.core.transmit[0]], core := r.core.(transmit := r.core.transmit[1..]))
    case DoPollEvent =>
      if r.core.events == [] then r
      else r.(seen := r.seen + [r.core.events[0]], core := r.core.(events := r.core.events[1..]))
  }

  function Begin(config: Config): Run {
    Run(Fresh(config), [], [], [], [])
  }

  predicate Legal(config: Config, ops: seq<Op>) {
    ops == [] || (Legal(config, ops[..|ops| - 1]) && Allowed(After(config, ops[..|ops| - 1]), ops[|ops| - 1]))
  }

  function After(config: Config, ops: seq<Op>): Run {
    if ops == [] then Begin(config) else Do(After(config, ops[..|ops| - 1]), ops[|ops| - 1])
  }

  /** Noting the packets changes nothing about how input is handled. */
  lemma {:induction false} ConsumeIsHandleInput(r: Run)
    ensures var o := InputOutcome(r.core, r.unread, []);
            Consume(r).core == o.state && Consume(r).unread == o.rest
    decreases |r.unread|
  {
    InputStepIsPrompt();
    assert r.unread + [] == r.unread;
    ParseIsPrompt(r.unread, [], r.core.config.maxPayload, r.core.verifyChecksum);
    var parsed := Parse(r.unread, r.core.config.maxPayload, r.core.verifyChecksum);
    if parsed.Got? {
      var (next, error) := PacketOutcome(r.core, parsed.packet);
      if error.None? {
        var after := Advance(r.(unread := r.unread[parsed.used..]), Some(In(parsed.packet)), next);
        ConsumeIsHandleInput(after);
        assert after.unread + [] == after.unread;
      }
    }
  }

  // ---- Connected or not ----

  /** A CNXN sent takes the session offline, and being told that it is connected takes it online. */
  function Signed(online: bool, e: Entry): bool {
    match e
    case Up(ConnectedTo(_)) => true
    case Out(p) => online && p.command != Cnxn
    case _ => online
  }

  /** Whether the last of the ConnectedTo events and CNXNs sent is a ConnectedTo. */
  function Online(log: seq<Entry>): bool {
    if log == [] then false else Signed(Online(log[..|log| - 1]), log[|log| - 1])
  }

  function Sign(online: bool, e: Option<Entry>): bool {
    if e.Some? then Signed(online, e.value) else online
  }

  lemma OnlineNoted(log: seq<Entry>, e: Option<Entry>)
    ensures Online(Noted(log, e)) == Sign(Online(log), e)
  {
    if e.Some? {
      assert (log + [e.value])[..|log|] == log;
    }
  }

  predicate Linked(r: Run) {
    Online(r.log) <==> r.core.state == Connected
  }

  /** A step that goes online says so, one that goes offline sends CNXN, and no other says either. */
  predicate Announces(c: Core, next: Core) {
    var e, p := NewEvent(c, next), NewPacket(c, next);
    if p.Some? && p.value.packet.command == Cnxn then next.state != Connected
    else if e.Some? && e.value.event.ConnectedTo? then next.state == Connected
    else (next.state == Connected <==> c.state == Connected)
  }

  lemma OnlineAfter(log: seq<Entry>, got: Option<Entry>, e: Option<Entry>, p: Option<Entry>)
    ensures Online(Noted(Noted(Noted(log, got), e), p)) == Sign(Sign(Sign(Online(log), got), e), p)
  {
    OnlineNoted(log, got);
    OnlineNoted(Noted(log, got), e);
    OnlineNoted(Noted(Noted(log, got), e), p);
  }

  lemma AnnouncesSigned(c: Core, got: Option<Entry>, next: Core)
    requires Announces(c, next) && (got.Some? ==> got.value.In?)
    ensures Sign(Sign(Sign(c.state == Connected, got), NewEvent(c, next)), NewPacket(c, next)) <==>
            next.state == Connected
  {
  }

  lemma AdvanceLinked(r: Run, got: Option<Entry>, next: Core)
    requires Linked(r) && Announces(r.core, next) && (got.Some? ==> got.value.In?)
    ensures Linked(Advance(r, got, next))
  {
    OnlineAfter(r.log, got, NewEvent(r.core, next), NewPacket(r.core, next));
    AnnouncesSigned(r.core, got, next);
  }

  lemma PacketAnnounces(c: Core, p: Packet)
    ensures Announces(c, PacketOutcome(c, p).0)
  {
  }

  lemma {:induction false} ConsumeLinked(r: Run)
    requires Linked(r)
    ensures Linked(Consume(r))
    decreases |r.unread|
  {
    ParseIsPrompt(r.unread, [], r.core.config.maxPayload, r.core.verifyChecksum);
    var parsed := Parse(r.unread, r.core.config.maxPayload, r.core.verifyChecksum);
    if parsed.Got? {
      var rest := r.(unread := r.unread[parsed.used..]);
      var (next, error) := PacketOutcome(r.core, parsed.packet);
      PacketAnnounces(r.core, parsed.packet);
      AdvanceLinked(rest, Some(In(parsed.packet)), next);
      if error.None? {
        ConsumeLinked(Advance(rest, Some(In(parsed.packet)), next));
      }
    }
  }

  lemma DoLinked(r: Run, op: Op)
    requires Linked(r)
    ensures Linked(Do(r, op))
  {
    match op
    case DoStart => AdvanceLinked(r, None, Started(r.core));
    case DoOpen(service) =>
      if Opened(r.core, service).Ok? {
        AdvanceLinked(r, None, Opened(r.core, service).value.0);
      }
    case DoWrite(id, data) =>
      if Written(r.core, id, data).Ok? {
        AdvanceLinked(r, None, Written(r.core, id, data).value);
      }
    case DoAck(id) => AdvanceLinked(r, None, Acked(r.core, id));
    case DoClose(id) => AdvanceLinked(r, None, Closed(r.core, id));
    case DoInput(bytes) => ConsumeLinked(r.(unread := r.unread + bytes));
    case DoPollTransmit =>
    case DoPollEvent =>
  }

  /**
   When exactly a session is connected: in any run whatever, with any number of starts, if and only if the last of the
   ConnectedTo events and CNXNs sent is a ConnectedTo.  So a second start disconnects, until the device answers again.
   */
  lemma {:induction false} ConnectedExactly(config: Config, ops: seq<Op>)
    ensures After(config, ops).core.state == Connected <==> Online(After(config, ops).log)
  {
    if ops != [] {
      ConnectedExactly(config, ops[..|ops| - 1]);
      DoLinked(After(config, ops[..|ops| - 1]), ops[|ops| - 1]);
    }
  }

  // ---- The protocol of one stream ----

  /** `credits` is how many more OKAYs than WRTEs there have been; `announced` whether StreamOpened was raised. */
  datatype Phase =
    | Unused
    | Opening
    | Live(remoteId: u32, credits: nat, announced: bool)
    | Refused
    | Finished
    | Violation

  /** `online` is whether the session is connected, for while it is not it refuses whatever comes for a stream. */
  function Watch(m: Phase, e: Entry, id: u32, online: bool): Phase {
    match e
    case In(p) =>
      if p.arg1 != id || !online then m
      else if p.command == Okay then
        if m.Opening? then Live(p.arg0, 1, false)
        else if m.Live? then m.(credits := m.credits + 1)
        else m
      else if p.command == Clse && (m.Opening? || m.Live?) then Refused
      else m
    case Up(StreamOpened(i)) =>
      if i != id then m else if m.Live? && !m.announced then m.(announced := true) else Violation
    case Up(StreamData(i, _)) =>
      if i != id then m else if m.Opening? || (m.Live? && m.announced) then m else Violation
    case Up(StreamClosed(i)) =>
      if i != id then m else if m.Refused? then Finished else Violation
    case Up(_) => m
    case Out(p) =>
      if p.arg0 != id || p.command in {Cnxn, Auth, Stls} then m
      else if p.command == Open then
        if m.Unused? && p.arg1 == 0 then Opening else Violation
      else if p.command == Clse then
        if (m.Opening? && p.arg1 == 0) || (m.Live? && p.arg1 == m.remoteId) then Finished else Violation
      else if !(m.Live? && m.announced && p.arg1 == m.remoteId) then Violation
      else if p.command == Okay then m
      else if m.credits > 0 && p.payload != [] then m.(credits := m.credits - 1)
      else Violation
  }

  function Monitor(log: seq<Entry>, id: u32): Phase {
    if log == [] then Unused else Watch(Monitor(log[..|log| - 1], id), log[|log| - 1], id, Online(log[..|log| - 1]))
  }

  function See(m: Phase, e: Option<Entry>, id: u32, online: bool): Phase {
    if e.Some? then Watch(m, e.value, id, online) else m
  }

  lemma MonitorNoted(log: seq<Entry>, e: Option<Entry>, id: u32)
    ensures Monitor(Noted(log, e), id) == See(Monitor(log, id), e, id, Online(log))
  {
    if e.Some? {
      assert (log + [e.value])[..|log|] == log;
    }
  }

  /** How the stream table and the monitor's phase for a stream go together. */
  predicate Agrees(c: Core, id: u32, m: Phase) {
    if id in c.streams then
      var s := c.streams[id];
      match s.remoteId
      case None => m == Opening && !s.writeInFlight
      case Some(r) =>
        && m.Live? && m.remoteId == r && m.announced
        && (!s.writeInFlight ==> m.credits > 0 && s.outbox == [])
    else if id < c.nextLocalId then m == Finished
    else m == Unused
  }

  predicate TableOk(c: Core) {
    && 1 <= c.nextLocalId
    && (forall id <- c.streams :: 1 <= id < c.nextLocalId)
  }

  /** The monitor's view of one step of the session. */
  function Follow(m: Phase, got: Option<Entry>, c: Core, next: Core, id: u32): Phase {
    See(See(See(m, got, id, c.state == Connected), NewEvent(c, next), id, true), NewPacket(c, next), id, true)
  }

  lemma MonitorAfter(log: seq<Entry>, got: Option<Entry>, e: Option<Entry>, p: Option<Entry>, id: u32)
    requires (e.Some? ==> !e.value.In?) && (p.Some? ==> !p.value.In?)
    ensures Monitor(Noted(Noted(Noted(log, got), e), p), id) ==
            See(See(See(Monitor(log, id), got, id, Online(log)), e, id, true), p, id, true)
  {
    MonitorNoted(log, got, id);
    MonitorNotedOwn(Noted(log, got), e, id);
    MonitorNotedOwn(Noted(Noted(log, got), e), p, id);
  }

  /** Whether the session is connected matters only for what it receives. */
  lemma MonitorNotedOwn(log: seq<Entry>, e: Option<Entry>, id: u32)
    requires e.Some? ==> !e.value.In?
    ensures Monitor(Noted(log, e), id) == See(Monitor(log, id), e, id, true)
  {
    MonitorNoted(log, e, id);
  }

  lemma AdvanceMonitored(r: Run, got: Option<Entry>, next: Core, id: u32)
    requires Linked(r)
    ensures Monitor(Advance(r, got, next).log, id) == Follow(Monitor(r.log, id), got, r.core, next, id)
  {
    MonitorAfter(r.log, got, NewEvent(r.core, next), NewPacket(r.core, next), id);
  }

  /** `c` agrees with the monitor, except that stream `flushing` may hold bytes it could send. */
  predicate AgreesBut(c: Core, id: u32, m: Phase, flushing: u32) {
    || Agrees(c, id, m)
    || (id == flushing && id in c.streams && c.streams[id].remoteId.Some? && !c.streams[id].writeInFlight &&
        m.Live? && m.remoteId == c.streams[id].remoteId.value && m.announced && m.credits > 0)
  }

  lemma FlushAgrees(c: Core, i: u32, m: Phase, id: u32)
    requires TableOk(c) && 1 <= id && AgreesBut(c, id, m, i)
    ensures TableOk(Flushed(c, i)) && Agrees(Flushed(c, i), id, Follow(m, None, c, Flushed(c, i), id))
    ensures Flushed(c, i).events == c.events
  {
  }

  lemma FirstOkayAgrees(c: Core, p: Packet, m: Phase, id: u32)
    requires TableOk(c) && 1 <= id && Agrees(c, id, m) && p.command == Okay && c.state == Connected
    requires p.arg1 in c.streams && c.streams[p.arg1].remoteId.None?
    ensures var next := OnOkay(c, p.arg0, p.arg1);
            TableOk(next) && Agrees(next, id, Follow(m, Some(In(p)), c, next, id))
  {
    var s := c.streams[p.arg1];
    var mid := c.Raise(StreamOpened(p.arg1)).(streams := c.streams[p.arg1 := s.(remoteId := Some(p.arg0))]);
    FlushAgrees(mid, p.arg1, Watch(Watch(m, In(p), id, true), Up(StreamOpened(p.arg1)), id, true), id);
  }

  lemma OkayAgrees(c: Core, p: Packet, m: Phase, id: u32)
    requires TableOk(c) && 1 <= id && Agrees(c, id, m) && p.command == Okay && c.state == Connected
    ensures var next := OnOkay(c, p.arg0, p.arg1);
            TableOk(next) && Agrees(next, id, Follow(m, Some(In(p)), c, next, id))
  {
    var i := p.arg1;
    if i in c.streams {
      var s := c.streams[i];
      if s.remoteId.None? {
        FirstOkayAgrees(c, p, m, id);
      } else {
        var mid := c.(streams := c.streams[i := s.(writeInFlight := false)]);
        FlushAgrees(mid, i, Watch(m, In(p), id, true), id);
      }
    }
  }

  lemma HandshakeAgrees(c: Core, p: Packet, m: Phase, id: u32)
    requires TableOk(c) && 1 <= id && Agrees(c, id, m) && c.state != Connected
    ensures var next := PacketOutcome(c, p).0;
            TableOk(next) && Agrees(next, id, Follow(m, Some(In(p)), c, next, id))
  {
  }

  lemma CloseReceivedAgrees(c: Core, p: Packet, m: Phase, id: u32)
    requires TableOk(c) && 1 <= id && Agrees(c, id, m) && c.state == Connected && p.command == Clse
    ensures var next := PacketOutcome(c, p).0;
            TableOk(next) && Agrees(next, id, Follow(m, Some(In(p)), c, next, id))
  {
  }

  lemma OtherAgrees(c: Core, p: Packet, m: Phase, id: u32)
    requires TableOk(c) && 1 <= id && Agrees(c, id, m) && c.state == Connected && p.command != Okay && p.command != Clse
    ensures var next := PacketOutcome(c, p).0;
            TableOk(next) && Agrees(next, id, Follow(m, Some(In(p)), c, next, id))
  {
  }

  lemma CorePacketAgrees(c: Core, p: Packet, m: Phase, id: u32)
    requires TableOk(c) && 1 <= id && Agrees(c, id, m)
    ensures var next := PacketOutcome(c, p).0;
            TableOk(next) && Agrees(next, id, Follow(m, Some(In(p)), c, next, id))
  {
    if c.state != Connected {
      HandshakeAgrees(c, p, m, id);
    } else if p.command == Okay {
      assert PacketOutcome(c, p).0 == OnOkay(c, p.arg0, p.arg1);
      OkayAgrees(c, p, m, id);
    } else if p.command == Clse {
      CloseReceivedAgrees(c, p, m, id);
    } else {
      OtherAgrees(c, p, m, id);
    }
  }

  lemma PacketAgrees(r: Run, p: Packet, id: u32)
    requires TableOk(r.core) && Linked(r) && 1 <= id
    requires Agrees(r.core, id, Monitor(r.log, id))
    ensures var next := PacketOutcome(r.core, p).0;
            TableOk(next) && Agrees(next, id, Monitor(Advance(r, Some(In(p)), next).log, id))
  {
    AdvanceMonitored(r, Some(In(p)), PacketOutcome(r.core, p).0, id);
    CorePacketAgrees(r.core, p, Monitor(r.log, id), id);
  }

  lemma {:induction false} ConsumeAgrees(r: Run, id: u32)
    requires TableOk(r.core) && Linked(r) && 1 <= id
    requires Agrees(r.core, id, Monitor(r.log, id))
    ensures TableOk(Consume(r).core) && Agrees(Consume(r).core, id, Monitor(Consume(r).log, id))
    decreases |r.unread|
  {
    ParseIsPrompt(r.unread, [], r.core.config.maxPayload, r.core.verifyChecksum);
    var parsed := Parse(r.unread, r.core.config.maxPayload, r.core.verifyChecksum);
    if parsed.Got? {
      var rest := r.(unread := r.unread[parsed.used..]);
      var (next, error) := PacketOutcome(r.core, parsed.packet);
      PacketAgrees(rest, parsed.packet, id);
      PacketAnnounces(r.core, parsed.packet);
      AdvanceLinked(rest, Some(In(parsed.packet)), next);
      if error.None? {
        ConsumeAgrees(Advance(rest, Some(In(parsed.packet)), next), id);
      }
    }
  }

  lemma OpenedAgrees(c: Core, service: seq<byte>, m: Phase, id: u32)
    requires TableOk(c) && 1 <= id && Agrees(c, id, m) && c.state == Connected && c.nextLocalId < U32_MAX
    ensures var next := Opened(c, service).value.0; TableOk(next) && Agrees(next, id, Follow(m, None, c, next, id))
  {
  }

  lemma StartedAgrees(c: Core, m: Phase, id: u32)
    requires TableOk(c) && 1 <= id && Agrees(c, id, m)
    ensures TableOk(Started(c)) && Agrees(Started(c), id, Follow(m, None, c, Started(c), id))
  {
  }

  lemma AckedAgrees(c: Core, i: u32, m: Phase, id: u32)
    requires TableOk(c) && 1 <= id && Agrees(c, id, m)
    ensures TableOk(Acked(c, i)) && Agrees(Acked(c, i), id, Follow(m, None, c, Acked(c, i), id))
  {
  }

  lemma ClosedAgrees(c: Core, i: u32, m: Phase, id: u32)
    requires TableOk(c) && 1 <= id && Agrees(c, id, m)
    ensures TableOk(Closed(c, i)) && Agrees(Closed(c, i), id, Follow(m, None, c, Closed(c, i), id))
  {
  }

  lemma WrittenAgrees(c: Core, i: u32, data: seq<byte>, m: Phase, id: u32)
    requires TableOk(c) && 1 <= id && Agrees(c, id, m) && i in c.streams
    ensures var next := Written(c, i, data).value; TableOk(next) && Agrees(next, id, Follow(m, None, c, next, id))
  {
    var s := c.streams[i];
    FlushAgrees(c.(streams := c.streams[i := s.(outbox := s.outbox + data)]), i, m, id);
  }

  /** What a step without input keeps of the monitored run, given what it keeps of the session alone. */
  lemma StepAgrees(r: Run, next: Core, id: u32)
    requires Linked(r) && TableOk(next) && Agrees(next, id, Follow(Monitor(r.log, id), None, r.core, next, id))
    ensures var after := Advance(r, None, next); TableOk(after.core) && Agrees(after.core, id, Monitor(after.log, id))
  {
    AdvanceMonitored(r, None, next, id);
  }

  lemma DoAgrees(r: Run, op: Op, id: u32)
    requires TableOk(r.core) && Linked(r) && Allowed(r, op) && 1 <= id
    requires Agrees(r.core, id, Monitor(r.log, id))
    ensures TableOk(Do(r, op).core) && Agrees(Do(r, op).core, id, Monitor(Do(r, op).log, id))
  {
    var c, m := r.core, Monitor(r.log, id);
    match op
    case DoStart =>
      StartedAgrees(c, m, id);
      StepAgrees(r, Started(c), id);
    case DoOpen(service) =>
      if c.state == Connected {
        OpenedAgrees(c, service, m, id);
        StepAgrees(r, Opened(c, service).value.0, id);
      }
    case DoWrite(i, data) =>
      if i in c.streams {
        WrittenAgrees(c, i, data, m, id);
        StepAgrees(r, Written(c, i, data).value, id);
      }
    case DoAck(i) =>
      AckedAgrees(c, i, m, id);
      StepAgrees(r, Acked(c, i), id);
    case DoClose(i) =>
      ClosedAgrees(c, i, m, id);
      StepAgrees(r, Closed(c, i), id);
    case DoInput(bytes) => ConsumeAgrees(r.(unread := r.unread + bytes), id);
    case DoPollTransmit =>
    case DoPollEvent =>
  }

  /** In every run the stream table and the monitor agree on every stream. */
  lemma {:induction false} StreamsFollowTheMonitor(config: Config, ops: seq<Op>, id: u32)
    requires Legal(config, ops) && 1 <= id
    ensures var r := After(config, ops); TableOk(r.core) && Agrees(r.core, id, Monitor(r.log, id))
  {
    if ops != [] {
      StreamsFollowTheMonitor(config, ops[..|ops| - 1], id);
      ConnectedExactly(config, ops[..|ops| - 1]);
      DoAgrees(After(config, ops[..|ops| - 1]), ops[|ops| - 1], id);
    }
  }

  // ---- What a log the monitor accepts looks like ----

  predicate Belongs(p: Packet, id: u32) {
    p.arg0 == id && p.command in {Open, Wrte, Okay, Clse}
  }

  /** The packets sent on a stream. */
  function SentOn(log: seq<Entry>, id: u32): seq<Packet> {
    if log == [] then []
    else
      var last := log[|log| - 1];
      SentOn(log[..|log| - 1], id) + if last.Out? && Belongs(last.packet, id) then [last.packet] else []
  }

  function WritesOn(log: seq<Entry>, id: u32): nat {
    if log == [] then 0
    else
      var last := log[|log| - 1];
      WritesOn(log[..|log| - 1], id) + One(last.Out? && last.packet.command == Wrte && last.packet.arg0 == id)
  }

  /** The OKAYs that a connected session received for a stream since its OPEN was sent. */
  function OkaysOn(log: seq<Entry>, id: u32): nat {
    if log == [] then 0
    else
      var before := log[..|log| - 1];
      var last := log[|log| - 1];
      var counts := Online(before) && SentOn(before, id) != [];
      OkaysOn(before, id) + One(counts && last.In? && last.packet.command == Okay && last.packet.arg1 == id)
  }

  function Times(log: seq<Entry>, e: Entry): nat {
    if log == [] then 0 else Times(log[..|log| - 1], e) + if log[|log| - 1] == e then 1 else 0
  }

  /** OPEN (WRTE|OKAY)* CLSE?, all behind the OPEN addressed to one remote id. */
  predicate Grammar(ps: seq<Packet>, remoteId: u32) {
    ps != [] ==>
      && ps[0].command == Open && ps[0].arg1 == 0
      && forall i | 1 <= i < |ps| ::
           && ps[i].arg1 == remoteId
           && (ps[i].command in {Wrte, Okay} || (ps[i].command == Clse && i == |ps| - 1))
  }

  predicate Unclosed(ps: seq<Packet>) {
    ps != [] && ps[|ps| - 1].command != Clse
  }

  predicate GrammarAt(m: Phase, ps: seq<Packet>, remoteId: u32) {
    && Grammar(ps, remoteId)
    && (m.Unused? ==> ps == [])
    && (m.Opening? ==> |ps| == 1)
    && (m.Live? ==> remoteId == m.remoteId)
    && (m.Opening? || m.Live? ==> Unclosed(ps))
  }

  lemma {:induction false} GrammarHolds(log: seq<Entry>, id: u32) returns (remoteId: u32)
    requires Monitor(log, id) != Violation
    ensures GrammarAt(Monitor(log, id), SentOn(log, id), remoteId)
  {
    if log == [] {
      remoteId := 0;
    } else {
      var before, last := log[..|log| - 1], log[|log| - 1];
      remoteId := GrammarHolds(before, id);
      if last.Out? && Belongs(last.packet, id) {
        remoteId := GrammarSent(Monitor(before, id), last.packet, id, Online(before), SentOn(before, id), remoteId);
      } else {
        remoteId := GrammarOther(Monitor(before, id), last, id, Online(before), SentOn(before, id), remoteId);
        assert SentOn(log, id) == SentOn(before, id);
      }
    }
  }

  lemma GrammarSent(m: Phase, p: Packet, id: u32, online: bool, ps: seq<Packet>, was: u32) returns (remoteId: u32)
    requires GrammarAt(m, ps, was) && Belongs(p, id) && Watch(m, Out(p), id, online) != Violation
    ensures GrammarAt(Watch(m, Out(p), id, online), ps + [p], remoteId)
  {
    remoteId := if m.Opening? then p.arg1 else was;
    GrammarGrows(ps, p, remoteId);
  }

  lemma GrammarOther(m: Phase, e: Entry, id: u32, online: bool, ps: seq<Packet>, was: u32) returns (remoteId: u32)
    requires GrammarAt(m, ps, was) && !(e.Out? && Belongs(e.packet, id)) && Watch(m, e, id, online) != Violation
    ensures GrammarAt(Watch(m, e, id, online), ps, remoteId)
  {
    remoteId := if e.In? && m.Opening? then e.packet.arg0 else was;
  }

  lemma GrammarGrows(ps: seq<Packet>, p: Packet, remoteId: u32)
    requires Grammar(ps, remoteId)
    requires if ps == [] then p.command == Open && p.arg1 == 0
             else p.command in {Wrte, Okay, Clse} && p.arg1 == remoteId && Unclosed(ps)
    ensures Grammar(ps + [p], remoteId)
  {
  }

  predicate CreditsAt(m: Phase, writes: nat, okays: nat, begun: bool) {
    && writes <= okays
    && (m.Unused? <==> !begun)
    && (m.Unused? || m.Opening? ==> okays == 0)
    && (m.Live? ==> writes + m.credits == okays)
  }

  lemma {:induction false} CreditsHold(log: seq<Entry>, id: u32)
    requires Monitor(log, id) != Violation
    ensures CreditsAt(Monitor(log, id), WritesOn(log, id), OkaysOn(log, id), SentOn(log, id) != [])
  {
    if log != [] {
      var before, last := log[..|log| - 1], log[|log| - 1];
      CreditsHold(before, id);
      match last
      case In(p) => CreditsReceived(Monitor(before, id), p, id, Online(before), WritesOn(before, id),
                                    OkaysOn(before, id), SentOn(before, id) != []);
      case Up(event) => CreditsRaised(Monitor(before, id), event, id, Online(before), WritesOn(before, id),
                                      OkaysOn(before, id), SentOn(before, id) != []);
      case Out(p) => CreditsSent(Monitor(before, id), p, id, Online(before), WritesOn(before, id), OkaysOn(before, id),
                                 SentOn(before, id) != []);
    }
  }

  lemma CreditsReceived(m: Phase, p: Packet, id: u32, online: bool, writes: nat, okays: nat, begun: bool)
    requires CreditsAt(m, writes, okays, begun) && Watch(m, In(p), id, online) != Violation
    ensures CreditsAt(Watch(m, In(p), id, online), writes,
                      okays + One(p.command == Okay && p.arg1 == id && online && begun), begun)
  {
  }

  lemma CreditsRaised(m: Phase, event: Event, id: u32, online: bool, writes: nat, okays: nat, begun: bool)
    requires CreditsAt(m, writes, okays, begun) && Watch(m, Up(event), id, online) != Violation
    ensures CreditsAt(Watch(m, Up(event), id, online), writes, okays, begun)
  {
  }

  lemma CreditsSent(m: Phase, p: Packet, id: u32, online: bool, writes: nat, okays: nat, begun: bool)
    requires CreditsAt(m, writes, okays, begun) && Watch(m, Out(p), id, online) != Violation
    ensures CreditsAt(Watch(m, Out(p), id, online), writes + One(p.command == Wrte && p.arg0 == id), okays,
                      begun || Belongs(p, id))
  {
  }

  lemma {:induction false} AnnouncedOnce(log: seq<Entry>, id: u32)
    requires Monitor(log, id) != Violation
    ensures var m := Monitor(log, id);
            && Times(log, Up(StreamOpened(id))) <=
                 (if m.Unused? || m.Opening? || (m.Live? && !m.announced) then 0 else 1)
            && Times(log, Up(StreamClosed(id))) <= (if m.Finished? then 1 else 0)
  {
    if log != [] {
      AnnouncedOnce(log[..|log| - 1], id);
    }
  }

  /** A packet of the stream is sent or an event of the stream is raised. */
  predicate Concerns(e: Entry, id: u32) {
    || (e.Out? && Belongs(e.packet, id))
    || e == Up(StreamOpened(id)) || e == Up(StreamClosed(id))
    || (e.Up? && e.event.StreamData? && e.event.localId == id)
  }

  predicate Closes(e: Entry, id: u32) {
    e == Up(StreamClosed(id)) || (e.Out? && Belongs(e.packet, id) && e.packet.command == Clse)
  }

  lemma FinishedStays(e: Entry, id: u32, online: bool)
    requires Watch(Finished, e, id, online) != Violation
    ensures Watch(Finished, e, id, online) == Finished && !Concerns(e, id)
  {
  }

  lemma CloseFinishes(m: Phase, e: Entry, id: u32, online: bool)
    requires Watch(m, e, id, online) != Violation && Closes(e, id)
    ensures Watch(m, e, id, online) == Finished
  {
  }

  lemma {:induction false} SilentAfterClose(log: seq<Entry>, id: u32)
    requires Monitor(log, id) != Violation
    ensures forall k, j | 0 <= k < j < |log| && Closes(log[k], id) :: !Concerns(log[j], id)
    ensures forall k | 0 <= k < |log| && Closes(log[k], id) :: Monitor(log, id) == Finished
  {
    if log != [] {
      var before, last := log[..|log| - 1], log[|log| - 1];
      SilentAfterClose(before, id);
      if Monitor(before, id) == Finished {
        FinishedStays(last, id, Online(before));
      }
      if Closes(last, id) {
        CloseFinishes(Monitor(before, id), last, id, Online(before));
      }
      assert forall k | 0 <= k < |before| :: before[k] == log[k];
    }
  }

  /**
   The life of a stream in any run: an identifier is opened once and never again, what is sent under it is
   OPEN (WRTE|OKAY)* CLSE? towards one remote id, writes never outnumber the OKAYs received for it, it is announced
   and reported closed at most once, and nothing is said under it after its close.
   */
  lemma StreamLifecycle(config: Config, ops: seq<Op>, id: u32)
    requires Legal(config, ops) && 1 <= id
    ensures var log := After(config, ops).log;
            && (exists remoteId :: Grammar(SentOn(log, id), remoteId))
            && WritesOn(log, id) <= OkaysOn(log, id)
            && Times(log, Up(StreamOpened(id))) <= 1
            && Times(log, Up(StreamClosed(id))) <= 1
            && (forall k, j | 0 <= k < j < |log| && Closes(log[k], id) :: !Concerns(log[j], id))
  {
    StreamsFollowTheMonitor(config, ops, id);
    var log := After(config, ops).log;
    assert Monitor(log, id) != Violation;
    var remoteId := GrammarHolds(log, id);
    CreditsHold(log, id);
    AnnouncedOnce(log, id);
    SilentAfterClose(log, id);
  }
}
