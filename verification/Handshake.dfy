/**
 The rest of what a session guarantees over whole runs (adb_proto/src/session.rs): the handshake, the size of each
 write, and that the log of `Lifecycle` is exactly what the driver polls.  Runs are any calls whatever, with any
 number of starts and of opens.
 */
module Handshake {
  import opened Bytes
  import opened Message
  import opened Session
  import opened Lifecycle
  import Dialogue

  datatype Stage = Silent | Offered | Answered | Agreed

  /** Where the handshake is, which kind of reply to a token is next, and whether the device has ever answered. */
  datatype Shake = Shake(stage: Stage, keyNext: bool, ever: bool) | Broken

  /**
   A CNXN whenever the session is started, then replies to tokens that alternate signature and key, then the device's
   CNXN, then stream traffic.  A start in between leaves the streams, and which reply is next, as they are.
   */
  function WatchShake(h: Shake, e: Entry): Shake {
    if h.Broken? then h
    else
      match e
      case In(p) => if p.command == Cnxn && h.stage.Offered? then h.(stage := Answered) else h
      case Up(ConnectedTo(_)) => if h.stage.Answered? then h.(stage := Agreed, ever := true) else Broken
      case Up(AwaitingUserApproval) => if h.stage.Offered? && h.keyNext then h else Broken
      case Up(_) => if h.stage.Agreed? then h else Broken
      case Out(p) =>
        if p.command == Cnxn then h.(stage := Offered)
        else if p.command == Auth then
          if h.stage.Offered? && p.arg0 == ReplyKind(h.keyNext) then h.(keyNext := !h.keyNext) else Broken
        else if h.ever && p.command != Stls then h
        else Broken
  }

  function ReplyKind(keyNext: bool): u32 {
    if keyNext then AUTH_RSAPUBLICKEY else AUTH_SIGNATURE
  }

  function ShakeOf(log: seq<Entry>): Shake {
    if log == [] then Shake(Silent, false, false) else WatchShake(ShakeOf(log[..|log| - 1]), log[|log| - 1])
  }

  function PacketsOf(log: seq<Entry>): seq<Packet> {
    if log == [] then []
    else if log[|log| - 1].Out? then PacketsOf(log[..|log| - 1]) + [log[|log| - 1].packet]
    else PacketsOf(log[..|log| - 1])
  }

  function EventsOf(log: seq<Entry>): seq<Event> {
    if log == [] then []
    else if log[|log| - 1].Up? then EventsOf(log[..|log| - 1]) + [log[|log| - 1].event]
    else EventsOf(log[..|log| - 1])
  }

  // ---- The size of each write ----

  /** The maximum that the device asked for last, and the one in force. */
  datatype Maximum = Maximum(asked: u32, inForce: pos32)

  function WatchMaximum(m: Maximum, e: Entry, config: Config): Maximum {
    match e
    case In(p) => if p.command == Cnxn then m.(asked := p.arg1) else m
    case Up(ConnectedTo(_)) => m.(inForce := Clamp(m.asked, config.maxPayload))
    case _ => m
  }

  function MaximumOf(log: seq<Entry>, config: Config): Maximum {
    if log == [] then Maximum(0, 4096) else WatchMaximum(MaximumOf(log[..|log| - 1], config), log[|log| - 1], config)
  }

  predicate FitsNow(e: Entry, m: Maximum) {
    e.Out? && e.packet.command == Wrte ==> 1 <= |e.packet.payload| <= m.inForce
  }

  /** Every WRTE carries at least one byte, and no more than the maximum in force when it was sent. */
  predicate Fitting(log: seq<Entry>, config: Config) {
    log == [] || (Fitting(log[..|log| - 1], config) && FitsNow(log[|log| - 1], MaximumOf(log[..|log| - 1], config)))
  }

  // ---- Every run is sound ----

  function StageFor(state: State): Stage {
    match state
    case Idle => Silent
    case Handshaking => Offered
    case Connected => Agreed
  }

  predicate ShakeFits(h: Shake, c: Core) {
    && h.Shake?
    && h == Shake(StageFor(c.state), c.sendPublicKeyNext, h.ever)
    && (c.state == Connected || c.streams != map[] ==> h.ever)
  }

  ghost predicate Sound(r: Run) {
    && PacketsOf(r.log) == r.polled + r.core.transmit
    && EventsOf(r.log) == r.seen + r.core.events
    && ShakeFits(ShakeOf(r.log), r.core)
    && MaximumOf(r.log, r.core.config).inForce == r.core.peerMaxPayload
    && Fitting(r.log, r.core.config)
  }

  predicate Grows<T(==)>(before: seq<T>, after: seq<T>) {
    after == before || (|after| == |before| + 1 && after[..|before|] == before)
  }

  function SeeShake(h: Shake, e: Option<Entry>): Shake {
    if e.Some? then WatchShake(h, e.value) else h
  }

  function FollowShake(h: Shake, got: Option<Entry>, c: Core, next: Core): Shake {
    SeeShake(SeeShake(SeeShake(h, got), NewEvent(c, next)), NewPacket(c, next))
  }

  function SeeMaximum(m: Maximum, e: Option<Entry>, config: Config): Maximum {
    if e.Some? then WatchMaximum(m, e.value, config) else m
  }

  /** What one step of the session may do to the two queues, the handshake and the maximum. */
  ghost predicate Modest(c: Core, got: Option<Entry>, next: Core) {
    && next.config == c.config
    && Grows(c.transmit, next.transmit)
    && Grows(c.events, next.events)
    && (got.Some? ==> got.value.In?)
    && ModestShake(c, got, next)
    && ModestSize(c, got, next)
  }

  ghost predicate ModestShake(c: Core, got: Option<Entry>, next: Core) {
    forall h: Shake | ShakeFits(h, c) :: ShakeFits(FollowShake(h, got, c, next), next)
  }

  /** The maximum changes only as the device's answer says, and a WRTE sent fits it. */
  predicate ModestSize(c: Core, got: Option<Entry>, next: Core) {
    var e, p := NewEvent(c, next), NewPacket(c, next);
    && next.peerMaxPayload ==
         (if e.Some? && e.value.event.ConnectedTo? then Clamp(Asked(got), c.config.maxPayload) else c.peerMaxPayload)
    && (e.Some? && e.value.event.ConnectedTo? ==> got.Some? && got.value.In? && got.value.packet.command == Cnxn)
    && (p.Some? ==> FitsNow(p.value, Maximum(0, next.peerMaxPayload)))
  }

  function Asked(got: Option<Entry>): u32 {
    if got.Some? && got.value.In? then got.value.packet.arg1 else 0
  }

  lemma NotedSummaries(log: seq<Entry>, e: Option<Entry>, config: Config)
    ensures ShakeOf(Noted(log, e)) == SeeShake(ShakeOf(log), e)
    ensures PacketsOf(Noted(log, e)) ==
            if e.Some? && e.value.Out? then PacketsOf(log) + [e.value.packet] else PacketsOf(log)
    ensures EventsOf(Noted(log, e)) == if e.Some? && e.value.Up? then EventsOf(log) + [e.value.event] else EventsOf(log)
    ensures MaximumOf(Noted(log, e), config) == SeeMaximum(MaximumOf(log, config), e, config)
    ensures Fitting(Noted(log, e), config) <==>
            Fitting(log, config) && (e.Some? ==> FitsNow(e.value, MaximumOf(log, config)))
  {
    if e.Some? {
      assert (log + [e.value])[..|log|] == log;
    }
  }

  lemma ThreeNotes(log: seq<Entry>, got: Option<Entry>, e: Option<Entry>, p: Option<Entry>, config: Config)
    requires (got.Some? ==> got.value.In?) && (e.Some? ==> e.value.Up?) && (p.Some? ==> p.value.Out?)
    ensures var after := Noted(Noted(Noted(log, got), e), p);
            && PacketsOf(after) == (if p.Some? then PacketsOf(log) + [p.value.packet] else PacketsOf(log))
            && EventsOf(after) == (if e.Some? then EventsOf(log) + [e.value.event] else EventsOf(log))
            && ShakeOf(after) == SeeShake(SeeShake(SeeShake(ShakeOf(log), got), e), p)
    ensures var after := Noted(Noted(Noted(log, got), e), p);
            var m := SeeMaximum(SeeMaximum(MaximumOf(log, config), got, config), e, config);
            && MaximumOf(after, config) == m
            && (Fitting(after, config) <==> Fitting(log, config) && (p.Some? ==> FitsNow(p.value, m)))
  {
    NotedSummaries(log, got, config);
    NotedSummaries(Noted(log, got), e, config);
    NotedSummaries(Noted(Noted(log, got), e), p, config);
  }

  lemma GrownTail<T>(before: seq<T>, after: seq<T>)
    requires Grows(before, after)
    ensures after[|before|..] == if |after| > |before| then [after[|before|]] else []
  {
  }

  /** What is queued beyond `before` follows what was already sent or queued. */
  lemma QueueGrows<T>(done: seq<T>, before: seq<T>, after: seq<T>)
    requires Grows(before, after)
    ensures done + after == if |after| > |before| then done + before + [after[|before|]] else done + before
  {
    GrownTail(before, after);
    assert after == before + after[|before|..];
  }

  lemma QueuesAdvance(r: Run, got: Option<Entry>, next: Core)
    requires Sound(r) && Modest(r.core, got, next)
    ensures var after := Advance(r, got, next);
            && PacketsOf(after.log) == r.polled + next.transmit
            && EventsOf(after.log) == r.seen + next.events
  {
    ThreeNotes(r.log, got, NewEvent(r.core, next), NewPacket(r.core, next), r.core.config);
    QueueGrows(r.polled, r.core.transmit, next.transmit);
    QueueGrows(r.seen, r.core.events, next.events);
  }

  lemma ShakeAdvances(r: Run, got: Option<Entry>, next: Core)
    requires Sound(r) && Modest(r.core, got, next)
    ensures ShakeFits(ShakeOf(Advance(r, got, next).log), next)
  {
    ThreeNotes(r.log, got, NewEvent(r.core, next), NewPacket(r.core, next), r.core.config);
    assert ShakeFits(FollowShake(ShakeOf(r.log), got, r.core, next), next);
  }

  lemma SizeFollows(m: Maximum, got: Option<Entry>, c: Core, next: Core)
    requires (got.Some? ==> got.value.In?) && ModestSize(c, got, next) && m.inForce == c.peerMaxPayload
    ensures var now := SeeMaximum(SeeMaximum(m, got, c.config), NewEvent(c, next), c.config);
            now.inForce == next.peerMaxPayload && (NewPacket(c, next).Some? ==> FitsNow(NewPacket(c, next).value, now))
  {
  }

  lemma SizeAdvances(r: Run, got: Option<Entry>, next: Core)
    requires Sound(r) && Modest(r.core, got, next)
    ensures var after := Advance(r, got, next);
            MaximumOf(after.log, next.config).inForce == next.peerMaxPayload && Fitting(after.log, next.config)
  {
    ThreeNotes(r.log, got, NewEvent(r.core, next), NewPacket(r.core, next), r.core.config);
    SizeFollows(MaximumOf(r.log, r.core.config), got, r.core, next);
  }

  lemma AdvanceSound(r: Run, got: Option<Entry>, next: Core)
    requires Sound(r) && Modest(r.core, got, next)
    ensures Sound(Advance(r, got, next))
  {
    QueuesAdvance(r, got, next);
    ShakeAdvances(r, got, next);
    SizeAdvances(r, got, next);
  }

  lemma FlushModest(c: Core, id: u32)
    ensures Modest(c, None, Flushed(c, id)) && Flushed(c, id).events == c.events
  {
  }

  lemma FirstOkayModest(c: Core, p: Packet)
    requires c.state == Connected && p.command == Okay && p.arg1 in c.streams && c.streams[p.arg1].remoteId.None?
    ensures Modest(c, Some(In(p)), OnOkay(c, p.arg0, p.arg1))
  {
    var s := c.streams[p.arg1];
    FlushModest(c.Raise(StreamOpened(p.arg1)).(streams := c.streams[p.arg1 := s.(remoteId := Some(p.arg0))]), p.arg1);
  }

  lemma LaterOkayModest(c: Core, p: Packet)
    requires c.state == Connected && p.command == Okay && p.arg1 in c.streams && c.streams[p.arg1].remoteId.Some?
    ensures Modest(c, Some(In(p)), OnOkay(c, p.arg0, p.arg1))
  {
    FlushModest(c.(streams := c.streams[p.arg1 := c.streams[p.arg1].(writeInFlight := false)]), p.arg1);
  }

  lemma OkayModest(c: Core, p: Packet)
    requires c.state == Connected && p.command == Okay
    ensures Modest(c, Some(In(p)), OnOkay(c, p.arg0, p.arg1))
  {
    if p.arg1 in c.streams {
      if c.streams[p.arg1].remoteId.None? {
        FirstOkayModest(c, p);
      } else {
        LaterOkayModest(c, p);
      }
    }
  }

  lemma ShakingModest(c: Core, p: Packet)
    requires c.state != Connected
    ensures Modest(c, Some(In(p)), PacketOutcome(c, p).0)
  {
  }

  lemma TrafficModest(c: Core, p: Packet)
    requires c.state == Connected && p.command != Okay
    ensures Modest(c, Some(In(p)), PacketOutcome(c, p).0)
  {
  }

  lemma PacketModest(c: Core, p: Packet)
    ensures Modest(c, Some(In(p)), PacketOutcome(c, p).0)
  {
    if c.state != Connected {
      ShakingModest(c, p);
    } else if p.command == Okay {
      assert PacketOutcome(c, p).0 == OnOkay(c, p.arg0, p.arg1);
      OkayModest(c, p);
    } else {
      TrafficModest(c, p);
    }
  }

  lemma {:induction false} ConsumeSound(r: Run)
    requires Sound(r)
    ensures Sound(Consume(r))
    decreases |r.unread|
  {
    ParseIsPrompt(r.unread, [], r.core.config.maxPayload, r.core.verifyChecksum);
    var parsed := Parse(r.unread, r.core.config.maxPayload, r.core.verifyChecksum);
    if parsed.Got? {
      var rest := r.(unread := r.unread[parsed.used..]);
      var (next, error) := PacketOutcome(r.core, parsed.packet);
      PacketModest(r.core, parsed.packet);
      AdvanceSound(rest, Some(In(parsed.packet)), next);
      if error.None? {
        ConsumeSound(Advance(rest, Some(In(parsed.packet)), next));
      }
    }
  }

  lemma WriteModest(c: Core, id: u32, data: seq<byte>)
    ensures Written(c, id, data).Ok? ==> Modest(c, None, Written(c, id, data).value)
  {
    if id in c.streams {
      FlushModest(c.(streams := c.streams[id := c.streams[id].(outbox := c.streams[id].outbox + data)]), id);
    }
  }

  lemma PollSound(r: Run)
    requires Sound(r)
    ensures Sound(Do(r, DoPollTransmit)) && Sound(Do(r, DoPollEvent))
  {
    if r.core.transmit != [] {
      assert r.polled + [r.core.transmit[0]] + r.core.transmit[1..] == r.polled + r.core.transmit;
    }
    if r.core.events != [] {
      assert r.seen + [r.core.events[0]] + r.core.events[1..] == r.seen + r.core.events;
    }
  }

  lemma StartModest(c: Core)
    ensures Modest(c, None, Started(c))
  {
  }

  lemma OpenModest(c: Core, service: seq<byte>)
    requires Opened(c, service).Ok?
    ensures Modest(c, None, Opened(c, service).value.0)
  {
  }

  lemma AckModest(c: Core, id: u32)
    ensures Modest(c, None, Acked(c, id))
  {
  }

  lemma CloseModest(c: Core, id: u32)
    ensures Modest(c, None, Closed(c, id))
  {
  }

  lemma OpenSound(r: Run, service: seq<byte>)
    requires Sound(r)
    ensures Sound(Do(r, DoOpen(service)))
  {
    if Opened(r.core, service).Ok? {
      OpenModest(r.core, service);
      AdvanceSound(r, None, Opened(r.core, service).value.0);
    }
  }

  lemma WriteSound(r: Run, id: u32, data: seq<byte>)
    requires Sound(r)
    ensures Sound(Do(r, DoWrite(id, data)))
  {
    WriteModest(r.core, id, data);
    if Written(r.core, id, data).Ok? {
      AdvanceSound(r, None, Written(r.core, id, data).value);
    }
  }

  lemma CallSound(r: Run, op: Op)
    requires Sound(r) && (op.DoStart? || op.DoAck? || op.DoClose?)
    ensures Sound(Do(r, op))
  {
    match op
    case DoStart =>
      StartModest(r.core);
      AdvanceSound(r, None, Started(r.core));
    case DoAck(id) =>
      AckModest(r.core, id);
      AdvanceSound(r, None, Acked(r.core, id));
    case DoClose(id) =>
      CloseModest(r.core, id);
      AdvanceSound(r, None, Closed(r.core, id));
  }

  lemma InputSound(r: Run, bytes: seq<byte>)
    requires Sound(r)
    ensures Sound(Do(r, DoInput(bytes)))
  {
    ConsumeSound(r.(unread := r.unread + bytes));
  }

  lemma DoSound(r: Run, op: Op)
    requires Sound(r)
    ensures Sound(Do(r, op))
  {
    match op
    case DoStart => CallSound(r, op);
    case DoOpen(service) => OpenSound(r, service);
    case DoWrite(id, data) => WriteSound(r, id, data);
    case DoAck(_) => CallSound(r, op);
    case DoClose(_) => CallSound(r, op);
    case DoInput(bytes) => InputSound(r, bytes);
    case DoPollTransmit => PollSound(r);
    case DoPollEvent => PollSound(r);
  }

  lemma {:induction false} RunsAreSound(config: Config, ops: seq<Op>)
    ensures Sound(After(config, ops))
  {
    if ops != [] {
      RunsAreSound(config, ops[..|ops| - 1]);
      DoSound(After(config, ops[..|ops| - 1]), ops[|ops| - 1]);
    }
  }

  // ---- What the logs look like ----

  predicate OfStreams(p: Packet) {
    p.command in {Open, Wrte, Okay, Clse}
  }

  /** The kinds of the authentication replies sent, in order. */
  function AuthReplies(log: seq<Entry>): seq<u32> {
    if log == [] then []
    else
      var last := log[|log| - 1];
      AuthReplies(log[..|log| - 1]) + if last.Out? && last.packet.command == Auth then [last.packet.arg0] else []
  }

  function CnxnSent(log: seq<Entry>): nat {
    if log == [] then 0
    else
      var last := log[|log| - 1];
      CnxnSent(log[..|log| - 1]) + One(last.Out? && last.packet.command == Cnxn)
  }

  predicate IsConnected(e: Entry) {
    e.Up? && e.event.ConnectedTo?
  }

  function Connections(log: seq<Entry>): nat {
    if log == [] then 0 else Connections(log[..|log| - 1]) + One(IsConnected(log[|log| - 1]))
  }

  ghost predicate ConnectedBefore(log: seq<Entry>, k: nat)
    requires k <= |log|
  {
    exists j | 0 <= j < k :: IsConnected(log[j])
  }

  lemma {:induction false} ShakenReplies(log: seq<Entry>)
    requires ShakeOf(log).Shake?
    ensures forall i | 0 <= i < |AuthReplies(log)| :: AuthReplies(log)[i] == ReplyKind(i % 2 == 1)
    ensures ShakeOf(log).keyNext == (|AuthReplies(log)| % 2 == 1)
  {
    if log != [] {
      ShakenReplies(log[..|log| - 1]);
    }
  }

  /** Every connection takes a CNXN of its own. */
  lemma {:induction false} ShakenCounts(log: seq<Entry>)
    requires ShakeOf(log).Shake?
    ensures Connections(log) + One(ShakeOf(log).stage.Offered? || ShakeOf(log).stage.Answered?) <= CnxnSent(log)
  {
    if log != [] {
      ShakenCounts(log[..|log| - 1]);
    }
  }

  lemma {:induction false} ShakenTraffic(log: seq<Entry>)
    requires ShakeOf(log).Shake?
    ensures ShakeOf(log).ever ==> ConnectedBefore(log, |log|)
    ensures forall k | 0 <= k < |log| && log[k].Out? && OfStreams(log[k].packet) :: ConnectedBefore(log, k)
  {
    if log != [] {
      var before := log[..|log| - 1];
      ShakenTraffic(before);
      forall k | 0 <= k < |log| && log[k].Out? && OfStreams(log[k].packet) ensures ConnectedBefore(log, k) {
        var j :| 0 <= j < (if k < |before| then k else |before|) && IsConnected(before[j]);
        assert log[j] == before[j];
      }
      if ShakeOf(log).ever {
        if ShakeOf(before).ever {
          var j :| 0 <= j < |before| && IsConnected(before[j]);
          assert log[j] == before[j];
        } else {
          assert IsConnected(log[|log| - 1]);
        }
      }
    }
  }

  // ---- How often a session is started ----

  function Starts(ops: seq<Op>): nat {
    if ops == [] then 0 else Starts(ops[..|ops| - 1]) + One(ops[|ops| - 1].DoStart?)
  }

  /** A step that sends neither CNXN nor OPEN, and hands out no identifier. */
  predicate Ordinary(c: Core, next: Core) {
    && next.nextLocalId == c.nextLocalId
    && (NewPacket(c, next).Some? ==> NewPacket(c, next).value.packet.command !in {Cnxn, Open})
  }

  lemma PacketIsOrdinary(c: Core, p: Packet)
    ensures Ordinary(c, PacketOutcome(c, p).0)
  {
  }

  lemma CnxnNoted(log: seq<Entry>, e: Option<Entry>)
    ensures CnxnSent(Noted(log, e)) == CnxnSent(log) + One(e.Some? && e.value.Out? && e.value.packet.command == Cnxn)
  {
    if e.Some? {
      assert (log + [e.value])[..|log|] == log;
    }
  }

  lemma CnxnAdvanced(r: Run, got: Option<Entry>, next: Core)
    requires got.Some? ==> got.value.In?
    ensures CnxnSent(Advance(r, got, next).log) ==
            CnxnSent(r.log) + One(NewPacket(r.core, next).Some? && NewPacket(r.core, next).value.packet.command == Cnxn)
  {
    CnxnNoted(r.log, got);
    CnxnNoted(Noted(r.log, got), NewEvent(r.core, next));
    CnxnNoted(Noted(Noted(r.log, got), NewEvent(r.core, next)), NewPacket(r.core, next));
  }

  lemma {:induction false} ConsumeSendsNoCnxn(r: Run)
    ensures CnxnSent(Consume(r).log) == CnxnSent(r.log)
    decreases |r.unread|
  {
    ParseIsPrompt(r.unread, [], r.core.config.maxPayload, r.core.verifyChecksum);
    var parsed := Parse(r.unread, r.core.config.maxPayload, r.core.verifyChecksum);
    if parsed.Got? {
      var rest := r.(unread := r.unread[parsed.used..]);
      var (next, error) := PacketOutcome(r.core, parsed.packet);
      PacketIsOrdinary(r.core, parsed.packet);
      CnxnAdvanced(rest, Some(In(parsed.packet)), next);
      if error.None? {
        ConsumeSendsNoCnxn(Advance(rest, Some(In(parsed.packet)), next));
      }
    }
  }

  /** A step that is neither a start nor an open. */
  lemma OrdinarySendsNoCnxn(r: Run, next: Core)
    requires Ordinary(r.core, next)
    ensures CnxnSent(Advance(r, None, next).log) == CnxnSent(r.log)
  {
    CnxnAdvanced(r, None, next);
  }

  lemma WriteIsOrdinary(c: Core, id: u32, data: seq<byte>)
    ensures Written(c, id, data).Ok? ==> Ordinary(c, Written(c, id, data).value)
  {
  }

  lemma DoSendsCnxn(r: Run, op: Op)
    ensures CnxnSent(Do(r, op).log) == CnxnSent(r.log) + One(op.DoStart?)
  {
    match op
    case DoStart => CnxnAdvanced(r, None, Started(r.core));
    case DoOpen(service) =>
      if Opened(r.core, service).Ok? {
        CnxnAdvanced(r, None, Opened(r.core, service).value.0);
      }
    case DoWrite(id, data) =>
      WriteIsOrdinary(r.core, id, data);
      if Written(r.core, id, data).Ok? {
        OrdinarySendsNoCnxn(r, Written(r.core, id, data).value);
      }
    case DoAck(id) => OrdinarySendsNoCnxn(r, Acked(r.core, id));
    case DoClose(id) => OrdinarySendsNoCnxn(r, Closed(r.core, id));
    case DoInput(bytes) => ConsumeSendsNoCnxn(r.(unread := r.unread + bytes));
    case DoPollTransmit =>
    case DoPollEvent =>
  }

  lemma {:induction false} StartsAreSent(config: Config, ops: seq<Op>)
    ensures CnxnSent(After(config, ops).log) == Starts(ops)
  {
    if ops != [] {
      StartsAreSent(config, ops[..|ops| - 1]);
      DoSendsCnxn(After(config, ops[..|ops| - 1]), ops[|ops| - 1]);
    }
  }

  // ---- The whole of a run ----

  /** A WRTE of a log fits the maximum in force when it was sent. */
  lemma {:induction false} FittingAt(log: seq<Entry>, config: Config, k: nat)
    requires Fitting(log, config) && k < |log|
    ensures FitsNow(log[k], MaximumOf(log[..k], config))
    decreases |log|
  {
    if k < |log| - 1 {
      FittingAt(log[..|log| - 1], config, k);
      assert log[..|log| - 1][..k] == log[..k];
    }
  }

  /** With one connection at most, the maximum in force behind it is the final one. */
  lemma {:induction false} OneMaximum(log: seq<Entry>, config: Config, k: nat)
    requires Connections(log) <= 1 && k <= |log| && Connections(log[..k]) == 1
    ensures MaximumOf(log[..k], config).inForce == MaximumOf(log, config).inForce
    decreases |log|
  {
    if k == |log| {
      assert log[..k] == log;
    } else {
      var init := log[..|log| - 1];
      assert init[..k] == log[..k];
      ConnectionsGrow(init, k);
      OneMaximum(init, config, k);
    }
  }

  lemma {:induction false} ConnectionsGrow(log: seq<Entry>, k: nat)
    requires k <= |log|
    ensures Connections(log[..k]) <= Connections(log)
    ensures ConnectedBefore(log, k) ==> Connections(log[..k]) > 0
    decreases |log|
  {
    if k == |log| {
      assert log[..k] == log;
      if k > 0 && ConnectedBefore(log, k) && !IsConnected(log[k - 1]) {
        var j :| 0 <= j < k && IsConnected(log[j]);
        assert log[..k - 1][j] == log[j];
        ConnectionsGrow(log[..k - 1], k - 1);
        assert log[..k - 1][..k - 1] == log[..k - 1];
      }
    } else {
      var init := log[..|log| - 1];
      assert init[..k] == log[..k];
      if ConnectedBefore(log, k) {
        var j :| 0 <= j < k && IsConnected(log[j]);
        assert init[j] == log[j];
      }
      ConnectionsGrow(init, k);
    }
  }

  /** What the device asked for, if both ends can take it, and otherwise the nearest that they can. */
  predicate Negotiated(inForce: nat, asked: u32, max: pos32) {
    && 1 <= inForce <= max
    && (asked == 0 ==> inForce == 1)
    && (1 <= asked <= max ==> inForce == asked)
    && (asked > max ==> inForce == max)
  }

  /** The maximum in force is agreed with the CNXN that the last ConnectedTo answered. */
  lemma {:induction false} MaximumAgreed(log: seq<Entry>, config: Config)
    requires Dialogue.Reasoned(log, config)
    ensures var accepted := Dialogue.Accepted(log);
            && (accepted.None? ==> MaximumOf(log, config).inForce == 4096)
            && (accepted.Some? ==> accepted.value.command == Cnxn &&
                                   Negotiated(MaximumOf(log, config).inForce, accepted.value.arg1, config.maxPayload))
  {
    if log != [] {
      var before, last := log[..|log| - 1], log[|log| - 1];
      MaximumAgreed(before, config);
      if IsConnected(last) {
        assert before != [] && before[|before| - 1].In?;
        assert MaximumOf(before, config).asked == before[|before| - 1].packet.arg1;
      }
    }
  }

  /** A write of a log, and the CNXN that the connection it belongs to was accepted with. */
  predicate Suits(log: seq<Entry>, k: nat, config: Config)
    requires k < |log|
  {
    log[k].Out? && log[k].packet.command == Wrte ==>
      var accepted := Dialogue.Accepted(log[..k]);
      && accepted.Some? && accepted.value.command == Cnxn
      && 1 <= |log[k].packet.payload| <= config.maxPayload
      && |log[k].packet.payload| <= if accepted.value.arg1 == 0 then 1 else accepted.value.arg1
  }

  lemma WriteSuits(log: seq<Entry>, config: Config, k: nat)
    requires Dialogue.Reasoned(log, config) && Fitting(log, config) && k < |log|
    requires log[k].Out? && OfStreams(log[k].packet) ==> ConnectedBefore(log, k)
    ensures Suits(log, k, config)
  {
    if log[k].Out? && log[k].packet.command == Wrte {
      Dialogue.ReasonedAt(log, config, k);
      MaximumAgreed(log[..k], config);
      FittingAt(log, config, k);
      Dialogue.AcceptedIsConnection(log[..k], config);
      var j :| 0 <= j < k && IsConnected(log[j]);
      assert log[..k][j] == log[j];
    }
  }

  /**
   The whole of any run: one CNXN for every start, replies to tokens that strictly alternate signature and public key
   over all the starts, nothing of a stream before the device has answered, and in every write at least one byte and no
   more than the device asked for in the CNXN it was accepted with, nor than the host's own maximum.  The maximum at the
   end is what the last such CNXN asked for, within the host's bounds.  The log is what the driver has polled and will
   poll, nothing more and nothing less.
   */
  lemma ConnectionLifecycle(config: Config, ops: seq<Op>)
    ensures var r := After(config, ops); var accepted := Dialogue.Accepted(r.log);
            && PacketsOf(r.log) == r.polled + r.core.transmit
            && EventsOf(r.log) == r.seen + r.core.events
            && CnxnSent(r.log) == Starts(ops)
            && (forall i | 0 <= i < |AuthReplies(r.log)| ::
                  AuthReplies(r.log)[i] == if i % 2 == 0 then AUTH_SIGNATURE else AUTH_RSAPUBLICKEY)
            && (forall k | 0 <= k < |r.log| && r.log[k].Out? && OfStreams(r.log[k].packet) :: ConnectedBefore(r.log, k))
            && (forall k | 0 <= k < |r.log| && r.log[k].Out? && r.log[k].packet.command == Wrte ::
                  1 <= |r.log[k].packet.payload| <= MaximumOf(r.log[..k], config).inForce)
            && (forall k: nat | k < |r.log| :: Suits(r.log, k, config))
            && MaximumOf(r.log, config).inForce == r.core.peerMaxPayload
            && (if accepted.Some? then Negotiated(r.core.peerMaxPayload, accepted.value.arg1, config.maxPayload)
                else r.core.peerMaxPayload == 4096)
  {
    RunsAreSound(config, ops);
    StartsAreSent(config, ops);
    Dialogue.RunsKeep(config, ops);
    var r := After(config, ops);
    ShakenReplies(r.log);
    ShakenTraffic(r.log);
    MaximumAgreed(r.log, config);
    forall k | 0 <= k < |r.log| && r.log[k].Out? && r.log[k].packet.command == Wrte
      ensures 1 <= |r.log[k].packet.payload| <= MaximumOf(r.log[..k], config).inForce
    {
      FittingAt(r.log, config, k);
    }
    forall k: nat | k < |r.log| ensures Suits(r.log, k, config) {
      WriteSuits(r.log, config, k);
    }
  }

  /** What one start adds: a single maximum, which every write of the run fits. */
  lemma OneStartOneMaximum(config: Config, ops: seq<Op>)
    requires Starts(ops) <= 1
    ensures var r := After(config, ops);
            && CnxnSent(r.log) <= 1
            && (forall p <- r.polled + r.core.transmit ::
                  p.command == Wrte ==> 1 <= |p.payload| <= r.core.peerMaxPayload)
  {
    RunsAreSound(config, ops);
    StartsAreSent(config, ops);
    var r := After(config, ops);
    ShakenTraffic(r.log);
    ShakenCounts(r.log);
    forall p <- PacketsOf(r.log) | p.command == Wrte ensures 1 <= |p.payload| <= r.core.peerMaxPayload {
      OnlyMaximum(r.log, r.core.config, p);
    }
  }

  lemma OnlyMaximum(log: seq<Entry>, config: Config, p: Packet)
    requires Fitting(log, config) && Connections(log) <= 1 && p in PacketsOf(log) && p.command == Wrte
    requires forall k | 0 <= k < |log| && log[k].Out? && OfStreams(log[k].packet) :: ConnectedBefore(log, k)
    ensures 1 <= |p.payload| <= MaximumOf(log, config).inForce
  {
    var k := PacketLogged(log, p);
    FittingAt(log, config, k);
    ConnectionsGrow(log, k);
    OneMaximum(log, config, k);
  }

  lemma {:induction false} PacketLogged(log: seq<Entry>, p: Packet) returns (k: nat)
    requires p in PacketsOf(log)
    ensures k < |log| && log[k] == Out(p)
  {
    if log[|log| - 1] == Out(p) {
      k := |log| - 1;
    } else {
      k := PacketLogged(log[..|log| - 1], p);
    }
  }

  /** It takes one start: a write may outgrow the maximum that a second connection agrees on. */
  lemma MaximumMayShrink(c: Core, p: Packet, banner: seq<byte>)
    requires p in c.transmit && p.command == Wrte && |p.payload| > 1
    ensures var again := PacketOutcome(Started(c), Packet(Cnxn, 0, 1, banner)).0;
            again.state == Connected && again.peerMaxPayload == 1 && p in again.transmit
  {
    assert Started(c).transmit[..|c.transmit|] == c.transmit;
  }

  // ---- Where the naive claims fail ----

  /** A second start drops the connection: whatever arrives for a stream is then a protocol error. */
  lemma RestartDropsTheConnection(c: Core, p: Packet)
    requires c.state == Connected && OfStreams(p)
    ensures PacketOutcome(Started(c), p) == (Started(c), Some(Protocol))
    ensures Opened(Started(c), []) == Err(Protocol)
  {
  }

  /** Data may be raised before the stream is announced: a WRTE is delivered while the opening OKAY is outstanding. */
  lemma DataBeforeOpened(c: Core, id: u32, remoteId: u32, data: seq<byte>)
    requires c.state == Connected && id in c.streams && c.streams[id] == Stream(None, [], false)
    ensures var c1 := PacketOutcome(c, Packet(Wrte, remoteId, id, data)).0;
            var c2 := PacketOutcome(c1, Packet(Okay, remoteId, id, [])).0;
            c2.events == c.events + [StreamData(id, data), StreamOpened(id)]
  {
  }

  lemma {:induction false} LiveWasAnswered(log: seq<Entry>, id: u32)
    requires Monitor(log, id) != Violation
    ensures var m := Monitor(log, id);
            && (m.Live? ==> OkaysOn(log, id) > 0)
            && (m.Live? && m.announced ==> Times(log, Up(StreamOpened(id))) > 0)
  {
    if log != [] {
      LiveWasAnswered(log[..|log| - 1], id);
      CreditsHold(log[..|log| - 1], id);
    }
  }

  lemma {:induction false} PrefixAccepted(log: seq<Entry>, id: u32, k: nat)
    requires Monitor(log, id) != Violation && k <= |log|
    ensures Monitor(log[..k], id) != Violation
    decreases |log|
  {
    if k == |log| {
      assert log[..k] == log;
    } else {
      PrefixAccepted(log[..|log| - 1], id, k);
      assert log[..|log| - 1][..k] == log[..k];
    }
  }

  lemma EarlyExactly(log: seq<Entry>, id: u32, e: Entry)
    requires Monitor(log, id) != Violation && Watch(Monitor(log, id), e, id, Online(log)) != Violation
    requires e.Up? && e.event.StreamData? && e.event.localId == id
    ensures Times(log, Up(StreamOpened(id))) == 0 <==> OkaysOn(log, id) == 0
  {
    LiveWasAnswered(log, id);
    CreditsHold(log, id);
    AnnouncedOnce(log, id);
  }

  /**
   When exactly data is raised on a stream that has not been announced: in any run, if and only if no OKAY for the
   stream has come since its OPEN.
   */
  lemma DataBeforeOpenedExactly(config: Config, ops: seq<Op>, id: u32, k: nat)
    requires Legal(config, ops) && 1 <= id
    requires var log := After(config, ops).log;
      k < |log| && log[k].Up? && log[k].event.StreamData? && log[k].event.localId == id
    ensures var before := After(config, ops).log[..k];
            Times(before, Up(StreamOpened(id))) == 0 <==> OkaysOn(before, id) == 0
  {
    var log := After(config, ops).log;
    StreamsFollowTheMonitor(config, ops, id);
    PrefixAccepted(log, id, k);
    PrefixAccepted(log, id, k + 1);
    assert log[..k + 1][..k] == log[..k];
    EarlyExactly(log[..k], id, log[k]);
  }

  // ---- Draining a stream ----

  /** The session after `k` further OKAYs for a stream. */
  function AfterOkays(c: Core, id: u32, remoteId: u32, k: nat): Core {
    if k == 0 then c else OnOkay(AfterOkays(c, id, remoteId, k - 1), remoteId, id)
  }

  function PayloadsFrom(ps: seq<Packet>): seq<byte> {
    if ps == [] then [] else PayloadsFrom(ps[..|ps| - 1]) + ps[|ps| - 1].payload
  }

  /** One OKAY moves the next chunk from the outbox into a write, or leaves the stream idle. */
  lemma OkayMovesChunk(c: Core, id: u32, remoteId: u32)
    requires id in c.streams && c.streams[id].remoteId.Some?
    requires c.streams[id].outbox != [] ==> c.streams[id].writeInFlight
    ensures var d := OnOkay(c, remoteId, id);
            var s := c.streams[id];
            var len := Min(|s.outbox|, c.peerMaxPayload);
            && d.peerMaxPayload == c.peerMaxPayload
            && id in d.streams && d.streams[id].remoteId == s.remoteId
            && d.streams[id].outbox == s.outbox[len..]
            && (d.streams[id].outbox != [] ==> d.streams[id].writeInFlight)
            && d.transmit == c.transmit +
                 if s.outbox == [] then [] else [Packet(Wrte, id, s.remoteId.value, s.outbox[..len])]
  {
  }

  /** What is left of `n` bytes after `k` chunks of at most `max`. */
  function Left(n: nat, max: pos32, k: nat): (r: nat)
    ensures r <= n
  {
    if k == 0 then n else Left(n, max, k - 1) - Min(Left(n, max, k - 1), max)
  }

  lemma {:induction false} LeftClosed(n: nat, max: pos32, k: nat)
    ensures Left(n, max, k) == if k * max >= n then 0 else n - k * max
  {
    if k > 0 {
      LeftClosed(n, max, k - 1);
      assert k * max == (k - 1) * max + max;
    }
  }

  /** `k` OKAYs move the next `k` chunks, in order and without loss, from the outbox into writes. */
  lemma {:induction false} OkaysMoveChunks(c: Core, id: u32, remoteId: u32, k: nat) returns (sent: seq<Packet>)
    requires id in c.streams && c.streams[id].remoteId.Some? && c.streams[id].writeInFlight
    ensures var d := AfterOkays(c, id, remoteId, k);
            var all := c.streams[id].outbox;
            && d.peerMaxPayload == c.peerMaxPayload
            && id in d.streams
            && (d.streams[id].outbox != [] ==> d.streams[id].writeInFlight)
            && d.transmit == c.transmit + sent
            && all == PayloadsFrom(sent) + d.streams[id].outbox
            && |d.streams[id].outbox| == Left(|all|, c.peerMaxPayload, k)
            && d.streams[id].remoteId == c.streams[id].remoteId
            && (forall p <- sent :: p.command == Wrte && p.arg0 == id && p.arg1 == c.streams[id].remoteId.value)
  {
    if k == 0 {
      sent := [];
    } else {
      var before := OkaysMoveChunks(c, id, remoteId, k - 1);
      var d := AfterOkays(c, id, remoteId, k - 1);
      OkayMovesChunk(d, id, remoteId);
      sent := NextChunk(c.transmit, before, d, id, remoteId, c.streams[id].outbox);
    }
  }

  lemma NextChunk(base: seq<Packet>, before: seq<Packet>, d: Core, id: u32, remoteId: u32, all: seq<byte>)
    returns (sent: seq<Packet>)
    requires id in d.streams && d.streams[id].remoteId.Some?
    requires d.streams[id].outbox != [] ==> d.streams[id].writeInFlight
    requires d.transmit == base + before && all == PayloadsFrom(before) + d.streams[id].outbox
    ensures var e := OnOkay(d, remoteId, id);
            && id in e.streams && e.transmit == base + sent && all == PayloadsFrom(sent) + e.streams[id].outbox
            && forall p <- sent ::
                 p in before || (p.command == Wrte && p.arg0 == id && p.arg1 == d.streams[id].remoteId.value)
  {
    OkayMovesChunk(d, id, remoteId);
    var s := d.streams[id];
    if s.outbox == [] {
      sent := before;
    } else {
      var len := Min(|s.outbox|, d.peerMaxPayload);
      sent := before + [Packet(Wrte, id, s.remoteId.value, s.outbox[..len])];
      assert sent[..|before|] == before;
      assert s.outbox == s.outbox[..len] + s.outbox[len..];
    }
  }

  /** n bytes queued behind a write in flight have left the outbox after ceil(n / max) OKAYs and not before. */
  lemma OutboxDrains(c: Core, id: u32, remoteId: u32, k: nat)
    requires id in c.streams && c.streams[id].remoteId.Some? && c.streams[id].writeInFlight
    ensures var d := AfterOkays(c, id, remoteId, k);
            var n := |c.streams[id].outbox|;
            && id in d.streams
            && (d.streams[id].outbox == [] <==> k >= (n + c.peerMaxPayload - 1) / c.peerMaxPayload)
  {
    var sent := OkaysMoveChunks(c, id, remoteId, k);
    LeftClosed(|c.streams[id].outbox|, c.peerMaxPayload, k);
    CeilingDivision(|c.streams[id].outbox|, c.peerMaxPayload, k);
  }

  lemma CeilingDivision(n: nat, max: pos32, k: nat)
    ensures k * max >= n <==> k >= (n + max - 1) / max
  {
    var q := (n + max - 1) / max;
    var r := (n + max - 1) % max;
    assert n + max - 1 == q * max + r;
    if k >= q {
      assert k * max >= q * max;
    } else {
      assert k * max <= (q - 1) * max;
    }
  }
}
