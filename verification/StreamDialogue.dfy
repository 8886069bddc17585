/**
 What a session says about streams, and in answer to what (adb_proto/src/session.rs:171-217, 281-324): the packets of a
 connected device and the calls of the host program each have exactly the consequence they ask for.
 */
module StreamDialogue {
  import opened Bytes
  import opened Message
  import opened Session
  import opened Lifecycle
  import opened Dialogue

  /** Whether the log leaves a stream open; no stream has the identifier zero. */
  predicate OpenIn(log: seq<Entry>, id: u32) {
    id != 0 && (Monitor(log, id).Opening? || Monitor(log, id).Live?)
  }

  /** A packet of a connected device, and what stands behind it in the log. */
  predicate StreamAnswered(log: seq<Entry>, k: nat)
    requires k < |log|
  {
    log[k].In? && Online(log[..k]) ==>
      var p, before := log[k].packet, log[..k];
      && (p.command == Okay && p.arg1 != 0 && Monitor(before, p.arg1).Opening? ==>
            k + 1 < |log| && log[k + 1] == Up(StreamOpened(p.arg1)))
      && (p.command == Wrte ==>
            && k + 1 < |log|
            && log[k + 1] == if OpenIn(before, p.arg1) then Up(StreamData(p.arg1, p.payload))
                             else Out(Packet(Clse, 0, p.arg0, [])))
      && (p.command == Clse && OpenIn(before, p.arg1) ==>
            k + 1 < |log| && log[k + 1] == Up(StreamClosed(p.arg1)))
  }

  /** A CLSE in the name of no stream, and the WRTE for an unknown one in front of it. */
  predicate Turned(log: seq<Entry>, k: nat)
    requires k < |log|
  {
    log[k].Out? && log[k].packet.command == Clse && log[k].packet.arg0 == 0 ==>
      && k > 0 && log[k - 1].In? && log[k - 1].packet.command == Wrte
      && log[k - 1].packet.arg0 == log[k].packet.arg1 && !OpenIn(log[..k - 1], log[k - 1].packet.arg1)
  }

  predicate Settled(log: seq<Entry>) {
    forall k: nat | k < |log| :: StreamAnswered(log, k) && Turned(log, k)
  }

  /** What a connected session answers. */
  predicate StreamReplies(c: Core, q: Packet, e: Option<Entry>, p: Option<Entry>) {
    c.state == Connected ==>
      && (q.command == Okay && q.arg1 in c.streams && c.streams[q.arg1].remoteId.None? ==>
            e == Some(Up(StreamOpened(q.arg1))))
      && (q.command == Wrte && q.arg1 in c.streams ==> e == Some(Up(StreamData(q.arg1, q.payload))) && p == None)
      && (q.command == Wrte && q.arg1 !in c.streams ==> e == None && p == Some(Out(Packet(Clse, 0, q.arg0, []))))
      && (q.command == Clse && q.arg1 in c.streams ==> e == Some(Up(StreamClosed(q.arg1))) && p == None)
  }

  /** No packet but such an answer is a CLSE in the name of no stream. */
  predicate Modest(c: Core, q: Option<Packet>, p: Option<Entry>) {
    p.Some? && p.value.Out? && p.value.packet.command == Clse && p.value.packet.arg0 == 0 ==>
      && q.Some? && c.state == Connected && q.value.command == Wrte && q.value.arg1 !in c.streams
      && q.value.arg0 == p.value.packet.arg1
  }

  lemma OkayReplies(c: Core, q: Packet)
    requires c.state == Connected && q.command == Okay
    ensures var next := OnOkay(c, q.arg0, q.arg1); var e, p := NewEvent(c, next), NewPacket(c, next);
            StreamReplies(c, q, e, p) && Modest(c, Some(q), p)
  {
  }

  lemma TrafficReplies(c: Core, q: Packet)
    requires c.state == Connected && q.command != Okay
    ensures var next := PacketOutcome(c, q).0; var e, p := NewEvent(c, next), NewPacket(c, next);
            StreamReplies(c, q, e, p) && Modest(c, Some(q), p)
  {
  }

  lemma PacketReplies(c: Core, q: Packet)
    ensures var next := PacketOutcome(c, q).0; var e, p := NewEvent(c, next), NewPacket(c, next);
            StreamReplies(c, q, e, p) && Modest(c, Some(q), p)
  {
    if c.state == Connected {
      if q.command == Okay {
        assert PacketOutcome(c, q).0 == OnOkay(c, q.arg0, q.arg1);
        OkayReplies(c, q);
      } else {
        TrafficReplies(c, q);
      }
    }
  }

  // ---- From steps to logs ----

  lemma AnsweredBehind(log: seq<Entry>, more: seq<Entry>, k: nat)
    requires k < |log| && StreamAnswered(log, k) && Turned(log, k)
    ensures StreamAnswered(log + more, k) && Turned(log + more, k)
  {
    assert (log + more)[..k] == log[..k];
    if k > 0 {
      assert (log + more)[..k - 1] == log[..k - 1];
    }
  }

  /** The session knows a stream exactly when the log leaves it open. */
  predicate Known(c: Core, log: seq<Entry>, id: u32) {
    && (id in c.streams <==> OpenIn(log, id))
    && (id != 0 && Monitor(log, id).Opening? ==> id in c.streams && c.streams[id].remoteId.None?)
  }

  lemma AnsweredNow(log: seq<Entry>, c: Core, q: Packet, e: Option<Entry>, p: Option<Entry>)
    requires StreamReplies(c, q, e, p) && (Online(log) <==> c.state == Connected) && Known(c, log, q.arg1)
    ensures StreamAnswered(log + ([In(q)] + Listed(e) + Listed(p)), |log|)
  {
    var after := log + ([In(q)] + Listed(e) + Listed(p));
    assert after[..|log|] == log && after[|log|] == In(q);
    assert e.Some? ==> after[|log| + 1] == e.value;
    assert e.None? && p.Some? ==> after[|log| + 1] == p.value;
  }

  lemma TurnedNow(log: seq<Entry>, c: Core, q: Packet, e: Option<Entry>, p: Entry)
    requires StreamReplies(c, q, e, Some(p)) && Modest(c, Some(q), Some(p)) && p.Out? && Known(c, log, q.arg1)
    ensures var after := log + ([In(q)] + Listed(e) + [p]); Turned(after, |after| - 1)
  {
    var after := log + ([In(q)] + Listed(e) + [p]);
    if e.None? {
      assert after[|after| - 2] == In(q) && after[..|after| - 2] == log;
    }
  }

  lemma PacketSettles(log: seq<Entry>, c: Core, q: Packet, e: Option<Entry>, p: Option<Entry>)
    requires Settled(log) && (Online(log) <==> c.state == Connected) && Known(c, log, q.arg1)
    requires StreamReplies(c, q, e, p) && Modest(c, Some(q), p)
    requires (e.Some? ==> e.value.Up?) && (p.Some? ==> p.value.Out?)
    ensures Settled(Noted(Noted(Noted(log, Some(In(q))), e), p))
  {
    NotedIs(log, Some(In(q)), e, p);
    var more := [In(q)] + Listed(e) + Listed(p);
    forall k: nat | k < |log + more| ensures StreamAnswered(log + more, k) && Turned(log + more, k) {
      if k < |log| {
        AnsweredBehind(log, more, k);
      } else if k == |log| {
        AnsweredNow(log, c, q, e, p);
      } else if p.Some? && k == |log + more| - 1 {
        TurnedNow(log, c, q, e, p.value);
      }
    }
  }

  /** A call adds one packet at most. */
  lemma CallSettles(log: seq<Entry>, p: Option<Entry>)
    requires Settled(log) && (p.Some? ==> p.value.Out? && !(p.value.packet.command == Clse && p.value.packet.arg0 == 0))
    ensures Settled(Noted(log, p))
  {
    if p.Some? {
      forall k: nat | k < |log + [p.value]| ensures StreamAnswered(log + [p.value], k) && Turned(log + [p.value], k) {
        if k < |log| {
          AnsweredBehind(log, [p.value], k);
        }
      }
    }
  }

  // ---- Whole runs ----

  ghost predicate Kept(r: Run) {
    && TableOk(r.core) && Linked(r) && Settled(r.log)
    && forall id: u32 | 1 <= id :: Agrees(r.core, id, Monitor(r.log, id))
  }

  lemma AgreesKnown(c: Core, log: seq<Entry>, id: u32)
    requires TableOk(c) && (id >= 1 ==> Agrees(c, id, Monitor(log, id)))
    ensures Known(c, log, id)
  {
  }

  lemma PacketKeeps(r: Run, q: Packet)
    requires Kept(r)
    ensures Kept(Advance(r, Some(In(q)), PacketOutcome(r.core, q).0))
  {
    var next := PacketOutcome(r.core, q).0;
    PacketReplies(r.core, q);
    AgreesKnown(r.core, r.log, q.arg1);
    PacketSettles(r.log, r.core, q, NewEvent(r.core, next), NewPacket(r.core, next));
    PacketAnnounces(r.core, q);
    AdvanceLinked(r, Some(In(q)), next);
    PacketTables(r, q);
    forall id: u32 | 1 <= id ensures Agrees(next, id, Monitor(Advance(r, Some(In(q)), next).log, id)) {
      PacketAgrees(r, q, id);
    }
  }

  lemma PacketTables(r: Run, q: Packet)
    requires Kept(r)
    ensures TableOk(PacketOutcome(r.core, q).0)
  {
    assert Agrees(r.core, 1, Monitor(r.log, 1));
    PacketAgrees(r, q, 1);
  }

  lemma {:induction false} ConsumeKeeps(r: Run)
    requires Kept(r)
    ensures Kept(Consume(r))
    decreases |r.unread|
  {
    ParseIsPrompt(r.unread, [], r.core.config.maxPayload, r.core.verifyChecksum);
    var parsed := Parse(r.unread, r.core.config.maxPayload, r.core.verifyChecksum);
    if parsed.Got? {
      var rest := r.(unread := r.unread[parsed.used..]);
      PacketKeeps(rest, parsed.packet);
      if PacketOutcome(r.core, parsed.packet).1.None? {
        ConsumeKeeps(Advance(rest, Some(In(parsed.packet)), PacketOutcome(r.core, parsed.packet).0));
      }
    }
  }

  lemma AdvanceSettles(r: Run, next: Core)
    requires Settled(r.log) && next.events == r.core.events
    requires Modest(r.core, None, NewPacket(r.core, next))
    ensures Settled(Advance(r, None, next).log)
  {
    CallSettles(r.log, NewPacket(r.core, next));
  }

  lemma WriteIsModest(c: Core, id: u32, data: seq<byte>)
    requires id in c.streams
    ensures var next := Written(c, id, data).value; next.events == c.events && Modest(c, None, NewPacket(c, next))
  {
  }

  lemma DoSettles(r: Run, op: Op)
    requires Settled(r.log) && TableOk(r.core) && !op.DoInput?
    ensures Settled(Do(r, op).log)
  {
    match op
    case DoStart => AdvanceSettles(r, Started(r.core));
    case DoOpen(service) =>
      if r.core.state == Connected {
        AdvanceSettles(r, Opened(r.core, service).value.0);
      }
    case DoWrite(id, data) =>
      if id in r.core.streams {
        WriteIsModest(r.core, id, data);
        AdvanceSettles(r, Written(r.core, id, data).value);
      }
    case DoAck(id) => AdvanceSettles(r, Acked(r.core, id));
    case DoClose(id) => AdvanceSettles(r, Closed(r.core, id));
    case DoPollTransmit =>
    case DoPollEvent =>
  }

  lemma {:induction false} RunsKeep(config: Config, ops: seq<Op>)
    requires Legal(config, ops)
    ensures Kept(After(config, ops))
  {
    ConnectedExactly(config, ops);
    StreamsFollowTheMonitor(config, ops, 1);
    forall id: u32 | 1 <= id ensures Agrees(After(config, ops).core, id, Monitor(After(config, ops).log, id)) {
      StreamsFollowTheMonitor(config, ops, id);
    }
    if ops != [] {
      var before, op := After(config, ops[..|ops| - 1]), ops[|ops| - 1];
      RunsKeep(config, ops[..|ops| - 1]);
      if op.DoInput? {
        ConsumeKeeps(before.(unread := before.unread + op.bytes));
      } else {
        DoSettles(before, op);
      }
    }
  }

  /**
   Every packet of a connected device has its answer, and a stray one is turned away.  In every run: an OKAY for a
   stream that is being opened is followed by its announcement, a WRTE by its data or, for an unknown stream, by a
   CLSE to its sender, and a CLSE for an open stream by its close; and a CLSE in the name of no stream is such an
   answer.
   */
  lemma StreamsAreAnswered(config: Config, ops: seq<Op>, k: nat)
    requires Legal(config, ops) && k < |After(config, ops).log|
    ensures StreamAnswered(After(config, ops).log, k) && Turned(After(config, ops).log, k)
  {
    RunsKeep(config, ops);
  }

  // ---- Calls ----

  /** What a call adds to the log, read off the log alone. */
  function Demands(log: seq<Entry>, op: Op, nextId: u32, config: Config): seq<Entry>
    requires op.DoStart? || op.DoOpen? || op.DoAck? || op.DoClose?
  {
    match op
    case DoStart => [Out(Packet(Cnxn, config.version, config.maxPayload, config.systemIdentity + [0]))]
    case DoOpen(service) => if Online(log) then [Out(Packet(Open, nextId, 0, service + [0]))] else []
    case DoAck(id) =>
      if id != 0 && Monitor(log, id).Live? then [Out(Packet(Okay, id, Monitor(log, id).remoteId, []))] else []
    case DoClose(id) =>
      if id != 0 && Monitor(log, id).Opening? then [Out(Packet(Clse, id, 0, []))]
      else if id != 0 && Monitor(log, id).Live? then [Out(Packet(Clse, id, Monitor(log, id).remoteId, []))]
      else []
  }

  lemma AckDemands(r: Run, id: u32)
    requires Kept(r)
    ensures Do(r, DoAck(id)).log == r.log + Demands(r.log, DoAck(id), r.core.nextLocalId, r.core.config)
  {
    if id >= 1 {
      assert Agrees(r.core, id, Monitor(r.log, id));
    }
  }

  lemma CloseDemands(r: Run, id: u32)
    requires Kept(r)
    ensures Do(r, DoClose(id)).log == r.log + Demands(r.log, DoClose(id), r.core.nextLocalId, r.core.config)
  {
    if id >= 1 {
      assert Agrees(r.core, id, Monitor(r.log, id));
    }
  }

  /**
   Every call has exactly its packet: CNXN for a start, OPEN with the service for an open while connected, OKAY for an
   acknowledgement of an open stream, CLSE for the close of one, towards the remote end the log knows, and otherwise
   nothing.
   */
  lemma CallsAreHeard(config: Config, ops: seq<Op>, op: Op)
    requires Legal(config, ops) && (op.DoStart? || op.DoOpen? || op.DoAck? || op.DoClose?)
    ensures var r := After(config, ops); Do(r, op).log == r.log + Demands(r.log, op, r.core.nextLocalId, config)
  {
    RunsKeep(config, ops);
    Dialogue.RunsKeep(config, ops);
    match op
    case DoStart =>
    case DoOpen(_) =>
    case DoAck(id) => AckDemands(After(config, ops), id);
    case DoClose(id) => CloseDemands(After(config, ops), id);
  }
}
