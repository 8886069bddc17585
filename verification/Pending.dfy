/**
 What `pending_write_len` counts (adb_proto/src/session.rs:185-198).  Its comment says the bytes queued and not yet
 acknowledged; the code leaves out the chunk in flight.  Here the two are compared over whole runs.
 */
module Pending {
  import opened Bytes
  import opened Message
  import opened Session
  import opened Lifecycle

  /** The bytes given to `write` for a stream in a run. */
  function GivenTo(config: Config, ops: seq<Op>, id: u32): seq<byte> {
    if ops == [] then []
    else
      var init, last := ops[..|ops| - 1], ops[|ops| - 1];
      if last.DoWrite? && last.id == id && id in After(config, init).core.streams
      then GivenTo(config, init, id) + last.data else GivenTo(config, init, id)
  }

  /** The bytes of the WRTEs answered by an OKAY, those of the WRTEs that are not, and how many the latter are. */
  datatype Tally = Tally(answered: seq<byte>, flying: seq<byte>, unanswered: nat)

  function WatchTally(t: Tally, e: Entry, id: u32, online: bool): Tally {
    match e
    case In(p) => if online && p.command == Okay && p.arg1 == id then Tally(t.answered + t.flying, [], 0) else t
    case Out(p) =>
      if p.command == Wrte && p.arg0 == id then Tally(t.answered, t.flying + p.payload, t.unanswered + 1) else t
    case Up(_) => t
  }

  function TallyOf(log: seq<Entry>, id: u32): Tally {
    if log == [] then Tally([], [], 0)
    else WatchTally(TallyOf(log[..|log| - 1], id), log[|log| - 1], id, Online(log[..|log| - 1]))
  }

  /** What has been given for a stream and not been acknowledged, in bytes. */
  function Unacknowledged(config: Config, ops: seq<Op>, id: u32): int {
    |GivenTo(config, ops, id)| - |TallyOf(After(config, ops).log, id).answered|
  }

  function See(t: Tally, e: Option<Entry>, id: u32, online: bool): Tally {
    if e.Some? then WatchTally(t, e.value, id, online) else t
  }

  lemma TallyNoted(log: seq<Entry>, e: Option<Entry>, id: u32)
    ensures TallyOf(Noted(log, e), id) == See(TallyOf(log, id), e, id, Online(log))
  {
    if e.Some? {
      assert (log + [e.value])[..|log|] == log;
    }
  }

  /** Being connected matters to what arrives only. */
  lemma OnlyArrivals(t: Tally, e: Option<Entry>, id: u32, online: bool)
    requires e.Some? ==> !e.value.In?
    ensures See(t, e, id, online) == See(t, e, id, true)
  {
  }

  function Follow(t: Tally, got: Option<Entry>, c: Core, next: Core, id: u32): Tally {
    See(See(See(t, got, id, c.state == Connected), NewEvent(c, next), id, true), NewPacket(c, next), id, true)
  }

  lemma TallyAdvanced(r: Run, got: Option<Entry>, next: Core, id: u32)
    requires Linked(r)
    ensures TallyOf(Advance(r, got, next).log, id) == Follow(TallyOf(r.log, id), got, r.core, next, id)
  {
    var e, p := NewEvent(r.core, next), NewPacket(r.core, next);
    var l1 := Noted(r.log, got);
    var l2 := Noted(l1, e);
    TallyNoted(r.log, got, id);
    TallyNoted(l1, e, id);
    TallyNoted(l2, p, id);
    OnlyArrivals(TallyOf(l1, id), e, id, Online(l1));
    OnlyArrivals(TallyOf(l2, id), p, id, Online(l2));
  }

  /** Given is answered, then in flight, then queued; and one WRTE is unanswered while one is in flight. */
  predicate Balanced(s: Stream, t: Tally, given: seq<byte>) {
    && given == t.answered + t.flying + s.outbox
    && t.unanswered == One(s.writeInFlight)
    && (t.flying != [] <==> s.writeInFlight)
    && (s.remoteId.None? ==> !s.writeInFlight)
  }

  predicate Account(c: Core, id: u32, t: Tally, given: seq<byte>) {
    if id in c.streams then Balanced(c.streams[id], t, given)
    else id >= c.nextLocalId ==> given == [] && t == Tally([], [], 0)
  }

  lemma FlushKeeps(c: Core, i: u32, id: u32, t: Tally, given: seq<byte>)
    requires Account(c, id, t, given)
    ensures Account(Flushed(c, i), id, Follow(t, None, c, Flushed(c, i), id), given)
  {
    if i == id && Flushed(c, i) != c {
      var s := c.streams[id];
      var len := Min(|s.outbox|, c.peerMaxPayload);
      assert s.outbox == s.outbox[..len] + s.outbox[len..];
      assert t.flying == [];
    }
  }

  lemma FirstOkayKeeps(c: Core, p: Packet, id: u32, t: Tally, given: seq<byte>)
    requires Account(c, id, t, given) && c.state == Connected && p.command == Okay
    requires p.arg1 in c.streams && c.streams[p.arg1].remoteId.None?
    ensures var next := OnOkay(c, p.arg0, p.arg1); Account(next, id, Follow(t, Some(In(p)), c, next, id), given)
  {
    var streams := c.streams[p.arg1 := c.streams[p.arg1].(remoteId := Some(p.arg0))];
    assert p.arg1 == id ==> t.flying == [] && t.answered + t.flying == t.answered;
    FlushKeeps(c.Raise(StreamOpened(p.arg1)).(streams := streams), p.arg1, id, WatchTally(t, In(p), id, true), given);
  }

  lemma LaterOkayKeeps(c: Core, p: Packet, id: u32, t: Tally, given: seq<byte>)
    requires Account(c, id, t, given) && c.state == Connected && p.command == Okay
    requires p.arg1 in c.streams && c.streams[p.arg1].remoteId.Some?
    ensures var next := OnOkay(c, p.arg0, p.arg1); Account(next, id, Follow(t, Some(In(p)), c, next, id), given)
  {
    var streams := c.streams[p.arg1 := c.streams[p.arg1].(writeInFlight := false)];
    assert t.answered + t.flying + [] == t.answered + t.flying;
    FlushKeeps(c.(streams := streams), p.arg1, id, WatchTally(t, In(p), id, true), given);
  }

  lemma OkayKeeps(c: Core, p: Packet, id: u32, t: Tally, given: seq<byte>)
    requires TableOk(c) && Account(c, id, t, given) && c.state == Connected && p.command == Okay
    ensures var next := OnOkay(c, p.arg0, p.arg1); Account(next, id, Follow(t, Some(In(p)), c, next, id), given)
  {
    if p.arg1 in c.streams {
      if c.streams[p.arg1].remoteId.None? {
        FirstOkayKeeps(c, p, id, t, given);
      } else {
        LaterOkayKeeps(c, p, id, t, given);
      }
    } else {
      StrayOkayKeeps(c, p, id, t, given);
    }
  }

  lemma StrayOkayKeeps(c: Core, p: Packet, id: u32, t: Tally, given: seq<byte>)
    requires Account(c, id, t, given) && p.command == Okay && p.arg1 !in c.streams && c.state == Connected
    ensures Account(c, id, Follow(t, Some(In(p)), c, c, id), given)
  {
    assert id !in c.streams && id >= c.nextLocalId ==> t == Tally([], [], 0) && t.answered + t.flying == [];
  }

  lemma OtherKeeps(c: Core, p: Packet, id: u32, t: Tally, given: seq<byte>)
    requires TableOk(c) && Account(c, id, t, given) && c.state == Connected && p.command != Okay
    ensures var next := PacketOutcome(c, p).0; Account(next, id, Follow(t, Some(In(p)), c, next, id), given)
  {
  }

  lemma ShakingKeeps(c: Core, p: Packet, id: u32, t: Tally, given: seq<byte>)
    requires TableOk(c) && Account(c, id, t, given) && c.state != Connected
    ensures var next := PacketOutcome(c, p).0; Account(next, id, Follow(t, Some(In(p)), c, next, id), given)
  {
  }

  lemma PacketKeeps(c: Core, p: Packet, id: u32, t: Tally, given: seq<byte>)
    requires TableOk(c) && Account(c, id, t, given)
    ensures var next := PacketOutcome(c, p).0; Account(next, id, Follow(t, Some(In(p)), c, next, id), given)
  {
    if c.state != Connected {
      ShakingKeeps(c, p, id, t, given);
    } else if p.command == Okay {
      assert PacketOutcome(c, p).0 == OnOkay(c, p.arg0, p.arg1);
      OkayKeeps(c, p, id, t, given);
    } else {
      OtherKeeps(c, p, id, t, given);
    }
  }

  /** The account of a run, kept by every step. */
  ghost predicate Kept(r: Run, id: u32, given: seq<byte>) {
    TableOk(r.core) && Linked(r) && Account(r.core, id, TallyOf(r.log, id), given)
  }

  lemma StepKeeps(r: Run, got: Option<Entry>, next: Core, id: u32, given: seq<byte>)
    requires Linked(r) && Account(next, id, Follow(TallyOf(r.log, id), got, r.core, next, id), given)
    ensures Account(next, id, TallyOf(Advance(r, got, next).log, id), given)
  {
    TallyAdvanced(r, got, next, id);
  }

  lemma {:induction false} ConsumeKeeps(r: Run, id: u32, given: seq<byte>)
    requires Kept(r, id, given) && 1 <= id
    ensures Account(Consume(r).core, id, TallyOf(Consume(r).log, id), given)
    decreases |r.unread|
  {
    ParseIsPrompt(r.unread, [], r.core.config.maxPayload, r.core.verifyChecksum);
    var parsed := Parse(r.unread, r.core.config.maxPayload, r.core.verifyChecksum);
    if parsed.Got? {
      var rest := r.(unread := r.unread[parsed.used..]);
      var (next, error) := PacketOutcome(r.core, parsed.packet);
      var after := Advance(rest, Some(In(parsed.packet)), next);
      PacketKeeps(r.core, parsed.packet, id, TallyOf(r.log, id), given);
      StepKeeps(rest, Some(In(parsed.packet)), next, id, given);
      PacketAnnounces(r.core, parsed.packet);
      AdvanceLinked(rest, Some(In(parsed.packet)), next);
      PacketTable(r.core, parsed.packet);
      if error.None? {
        ConsumeKeeps(after, id, given);
      }
    }
  }

  lemma PacketTable(c: Core, p: Packet)
    requires TableOk(c)
    ensures TableOk(PacketOutcome(c, p).0)
  {
  }

  lemma WriteKeeps(r: Run, i: u32, data: seq<byte>, id: u32, given: seq<byte>)
    requires Kept(r, id, given) && i in r.core.streams
    ensures var after := Do(r, DoWrite(i, data));
            Account(after.core, id, TallyOf(after.log, id), if i == id then given + data else given)
  {
    var c, t, more := r.core, TallyOf(r.log, id), if i == id then given + data else given;
    var s := c.streams[i];
    var mid := c.(streams := c.streams[i := s.(outbox := s.outbox + data)]);
    if i == id {
      Regrouped(t.answered + t.flying, s.outbox, data);
    }
    FlushKeeps(mid, i, id, t, more);
    StepKeeps(r, None, Written(c, i, data).value, id, more);
  }

  lemma OpenKeeps(r: Run, service: seq<byte>, id: u32, given: seq<byte>)
    requires Kept(r, id, given) && r.core.nextLocalId < U32_MAX
    ensures var after := Do(r, DoOpen(service)); Account(after.core, id, TallyOf(after.log, id), given)
  {
    if r.core.state == Connected {
      StepKeeps(r, None, Opened(r.core, service).value.0, id, given);
    }
  }

  lemma AckKeeps(r: Run, i: u32, id: u32, given: seq<byte>)
    requires Kept(r, id, given)
    ensures var after := Do(r, DoAck(i)); Account(after.core, id, TallyOf(after.log, id), given)
  {
    StepKeeps(r, None, Acked(r.core, i), id, given);
  }

  lemma CloseKeeps(r: Run, i: u32, id: u32, given: seq<byte>)
    requires Kept(r, id, given)
    ensures var after := Do(r, DoClose(i)); Account(after.core, id, TallyOf(after.log, id), given)
  {
    assert i in r.core.streams ==> i < r.core.nextLocalId;
    StepKeeps(r, None, Closed(r.core, i), id, given);
  }

  lemma DoKeeps(r: Run, op: Op, id: u32, given: seq<byte>)
    requires Kept(r, id, given) && Allowed(r, op) && 1 <= id
    ensures Account(Do(r, op).core, id, TallyOf(Do(r, op).log, id),
                    if op.DoWrite? && op.id == id && id in r.core.streams then given + op.data else given)
  {
    match op
    case DoStart => StepKeeps(r, None, Started(r.core), id, given);
    case DoOpen(service) => OpenKeeps(r, service, id, given);
    case DoWrite(i, data) =>
      if i in r.core.streams {
        WriteKeeps(r, i, data, id, given);
      }
    case DoAck(i) => AckKeeps(r, i, id, given);
    case DoClose(i) => CloseKeeps(r, i, id, given);
    case DoInput(bytes) => ConsumeKeeps(r.(unread := r.unread + bytes), id, given);
    case DoPollTransmit =>
    case DoPollEvent =>
  }

  lemma {:induction false} RunsKeep(config: Config, ops: seq<Op>, id: u32)
    requires Legal(config, ops) && 1 <= id
    ensures Account(After(config, ops).core, id, TallyOf(After(config, ops).log, id), GivenTo(config, ops, id))
  {
    if ops != [] {
      var init := ops[..|ops| - 1];
      RunsKeep(config, init, id);
      StreamsFollowTheMonitor(config, init, id);
      ConnectedExactly(config, init);
      DoKeeps(After(config, init), ops[|ops| - 1], id, GivenTo(config, init, id));
    }
  }

  /**
   In every run and for every open stream: the bytes given are those answered, then those in flight, then those pending.
   So `pending_write_len` is what has been given and not been acknowledged if and only if no WRTE is unanswered, and
   otherwise falls short of it by the chunk in flight.
   */
  lemma PendingExactly(config: Config, ops: seq<Op>, id: u32)
    requires Legal(config, ops) && 1 <= id && id in After(config, ops).core.streams
    ensures var r := After(config, ops); var t := TallyOf(r.log, id); var n := PendingLen(r.core, id);
            && GivenTo(config, ops, id) == t.answered + t.flying + r.core.streams[id].outbox
            && n == Unacknowledged(config, ops, id) - |t.flying|
            && (n == Unacknowledged(config, ops, id) <==> t.unanswered == 0)
            && t.unanswered <= 1
  {
    RunsKeep(config, ops, id);
  }

  /** The input that shows it: a write to an idle open stream leaves nothing pending and everything unacknowledged. */
  lemma NothingPendingInFlight(c: Core, id: u32, remoteId: u32, data: seq<byte>)
    requires id in c.streams && c.streams[id] == Stream(Some(remoteId), [], false) && 0 < |data| <= c.peerMaxPayload
    ensures var next := Written(c, id, data);
            && next.Ok? && PendingLen(next.value, id) == 0
            && next.value.transmit == c.transmit + [Packet(Wrte, id, remoteId, data)]
  {
    assert [] + data == data && data[..|data|] == data;
  }
}
