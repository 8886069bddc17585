/**
 What a session says, and in answer to what (adb_proto/src/session.rs:137-147, 245-324).  Every entry of a run's log is
 accounted for by the entries next to it, in both directions: nothing is said without its reason, and what comes in has
 its answer.  The statements are about logs alone.
 */
module Dialogue {
  import opened Bytes
  import opened Message
  import opened Session
  import opened Lifecycle

  // ---- What a log tells about the session ----

  function Face(s: State, e: Entry): State {
    match e
    case Up(ConnectedTo(_)) => Connected
    case Out(p) => if p.command == Cnxn then Handshaking else s
    case _ => s
  }

  /** Handshaking from a CNXN sent, connected from a ConnectedTo. */
  function Facing(log: seq<Entry>): State {
    if log == [] then Idle else Face(Facing(log[..|log| - 1]), log[|log| - 1])
  }

  predicate IsReply(e: Entry) {
    e.Out? && e.packet.command == Auth
  }

  /** Whether an odd number of replies to tokens has been sent. */
  predicate KeyNext(log: seq<Entry>) {
    log != [] && KeyNext(log[..|log| - 1]) != IsReply(log[|log| - 1])
  }

  function LastOf(log: seq<Entry>): Option<Entry> {
    if log == [] then None else Some(log[|log| - 1])
  }

  predicate Came(e: Option<Entry>, command: Command) {
    e.Some? && e.value.In? && e.value.packet.command == command
  }

  predicate CameToken(e: Option<Entry>) {
    Came(e, Auth) && e.value.packet.arg0 == AUTH_TOKEN
  }

  // ---- Nothing is said without its reason ----

  /** An event, with the entry in front of it. */
  predicate Caused(event: Event, last: Option<Entry>) {
    match event
    case ConnectedTo(banner) => Came(last, Cnxn) && last.value.packet.payload == banner
    case AwaitingUserApproval => CameToken(last)
    case StreamOpened(id) => Came(last, Okay) && last.value.packet.arg1 == id
    case StreamData(id, data) =>
      Came(last, Wrte) && last.value.packet.arg1 == id && last.value.packet.payload == data
    case StreamClosed(id) => Came(last, Clse) && last.value.packet.arg1 == id
  }

  /** A packet sent, with the entry in front of it and the one before that. */
  predicate Proper(p: Packet, last: Option<Entry>, previous: Option<Entry>, config: Config) {
    match p.command
    case Cnxn => p == Packet(Cnxn, config.version, config.maxPayload, config.systemIdentity + [0])
    case Auth =>
      && p.arg1 == 0
      && if p.arg0 == AUTH_SIGNATURE
         then CameToken(last) && config.key.signToken(last.value.packet.payload) == Some(p.payload)
         else
           && p.arg0 == AUTH_RSAPUBLICKEY && last == Some(Up(AwaitingUserApproval)) && CameToken(previous)
           && config.key.androidPublicKey == Some(p.payload)
    case Open => p.arg1 == 0 && p.payload != [] && p.payload[|p.payload| - 1] == 0
    case Wrte => p.payload != []
    case Okay => p.payload == []
    case Clse => p.payload == []
    case Stls => false
  }

  predicate Explained(e: Entry, last: Option<Entry>, previous: Option<Entry>, config: Config) {
    match e
    case In(_) => true
    case Up(event) => Caused(event, last)
    case Out(p) => Proper(p, last, previous, config)
  }

  predicate Reasoned(log: seq<Entry>, config: Config) {
    log == [] ||
    var before := log[..|log| - 1];
    && Reasoned(before, config)
    && Explained(log[|log| - 1], LastOf(before), if before == [] then None else LastOf(before[..|before| - 1]), config)
  }

  // ---- What comes in has its answer ----

  /** A packet of the handshake, and what stands behind it in the log. */
  predicate Answered(log: seq<Entry>, k: nat, config: Config)
    requires k < |log|
  {
    log[k].In? ==>
      var p, before := log[k].packet, log[..k];
      && (Facing(before) == Handshaking && p.command == Cnxn ==>
            k + 1 < |log| && log[k + 1] == Up(ConnectedTo(p.payload)))
      && (Facing(before) == Handshaking && p.command == Auth && p.arg0 == AUTH_TOKEN ==>
            if KeyNext(before)
            then config.key.androidPublicKey.Some? ==>
              && k + 2 < |log| && log[k + 1] == Up(AwaitingUserApproval)
              && log[k + 2] == Out(Packet(Auth, AUTH_RSAPUBLICKEY, 0, config.key.androidPublicKey.value))
            else config.key.signToken(p.payload).Some? ==>
              && k + 1 < |log|
              && log[k + 1] == Out(Packet(Auth, AUTH_SIGNATURE, 0, config.key.signToken(p.payload).value)))
  }

  predicate AllAnswered(log: seq<Entry>, config: Config) {
    forall k: nat | k < |log| :: Answered(log, k, config)
  }

  /** The CNXN that the last ConnectedTo answered. */
  function Accepted(log: seq<Entry>): Option<Packet> {
    if log == [] then None
    else
      var before, last := log[..|log| - 1], log[|log| - 1];
      if last.Up? && last.event.ConnectedTo? && before != [] && before[|before| - 1].In?
      then Some(before[|before| - 1].packet) else Accepted(before)
  }

  /** Checksums are verified until both ends say that they speak a version without. */
  predicate Checks(accepted: Option<Packet>, config: Config) {
    accepted.None? || accepted.value.arg0 < VERSION_SKIP_CHECKSUM || config.version < VERSION_SKIP_CHECKSUM
  }

  // ---- One step ----

  /** What a step adds to the log is explained, and answers what came in. */
  ghost predicate Speaks(c: Core, got: Option<Entry>, next: Core) {
    var e, p := NewEvent(c, next), NewPacket(c, next);
    && next.config == c.config
    && (got.Some? ==> got.value.In?)
    && (e.Some? ==> Explained(e.value, got, None, c.config))
    && (p.Some? ==> if e.Some? then Explained(p.value, e, got, c.config) else Explained(p.value, got, None, c.config))
    && next.state == Turned(Turned(c.state, e), p)
    && next.sendPublicKeyNext == (c.sendPublicKeyNext != (p.Some? && IsReply(p.value)))
    && next.verifyChecksum == (if e.Some? && e.value.event.ConnectedTo? then Checks(Some(got.value.packet), c.config)
                               else c.verifyChecksum)
  }

  function Turned(s: State, e: Option<Entry>): State {
    if e.Some? then Face(s, e.value) else s
  }

  /** What is answered to a packet of the handshake. */
  predicate Replies(c: Core, q: Packet, e: Option<Entry>, p: Option<Entry>) {
    && (c.state == Handshaking && q.command == Cnxn ==> e == Some(Up(ConnectedTo(q.payload))))
    && (c.state == Handshaking && q.command == Auth && q.arg0 == AUTH_TOKEN ==>
          if c.sendPublicKeyNext
          then c.config.key.androidPublicKey.Some? ==>
            && e == Some(Up(AwaitingUserApproval))
            && p == Some(Out(Packet(Auth, AUTH_RSAPUBLICKEY, 0, c.config.key.androidPublicKey.value)))
          else c.config.key.signToken(q.payload).Some? ==>
            && e == None
            && p == Some(Out(Packet(Auth, AUTH_SIGNATURE, 0, c.config.key.signToken(q.payload).value))))
  }

  lemma FlushSpeaks(c: Core, id: u32)
    ensures Speaks(c, None, Flushed(c, id)) && Flushed(c, id).events == c.events
  {
  }

  lemma OkaySpeaks(c: Core, q: Packet)
    requires c.state == Connected && q.command == Okay
    ensures Speaks(c, Some(In(q)), OnOkay(c, q.arg0, q.arg1))
  {
    if q.arg1 in c.streams {
      var s := c.streams[q.arg1];
      if s.remoteId.None? {
        var streams := c.streams[q.arg1 := s.(remoteId := Some(q.arg0))];
        FlushSpeaks(c.Raise(StreamOpened(q.arg1)).(streams := streams), q.arg1);
      } else {
        FlushSpeaks(c.(streams := c.streams[q.arg1 := s.(writeInFlight := false)]), q.arg1);
      }
    }
  }

  lemma ConnectionSpeaks(c: Core, q: Packet)
    requires c.state == Handshaking && q.command == Cnxn
    ensures var next := PacketOutcome(c, q).0;
            Speaks(c, Some(In(q)), next) && Replies(c, q, NewEvent(c, next), NewPacket(c, next))
  {
  }

  lemma AuthSpeaks(c: Core, q: Packet)
    requires c.state == Handshaking && q.command == Auth
    ensures var next := OnAuth(c, q).0;
            Speaks(c, Some(In(q)), next) && Replies(c, q, NewEvent(c, next), NewPacket(c, next))
  {
  }

  lemma ShakingSpeaks(c: Core, q: Packet)
    requires c.state != Connected
    ensures var next := PacketOutcome(c, q).0;
            Speaks(c, Some(In(q)), next) && Replies(c, q, NewEvent(c, next), NewPacket(c, next))
  {
    if c.state == Handshaking && q.command == Cnxn {
      ConnectionSpeaks(c, q);
    } else if c.state == Handshaking && q.command == Auth {
      assert PacketOutcome(c, q).0 == OnAuth(c, q).0;
      AuthSpeaks(c, q);
    } else {
      assert PacketOutcome(c, q).0 == c;
    }
  }

  lemma TrafficSpeaks(c: Core, q: Packet)
    requires c.state == Connected && q.command != Okay
    ensures Speaks(c, Some(In(q)), PacketOutcome(c, q).0)
  {
  }

  lemma PacketSpeaks(c: Core, q: Packet)
    ensures var next := PacketOutcome(c, q).0;
            Speaks(c, Some(In(q)), next) && Replies(c, q, NewEvent(c, next), NewPacket(c, next))
  {
    if c.state != Connected {
      ShakingSpeaks(c, q);
    } else if q.command == Okay {
      assert PacketOutcome(c, q).0 == OnOkay(c, q.arg0, q.arg1);
      OkaySpeaks(c, q);
    } else {
      TrafficSpeaks(c, q);
    }
  }

  /** The key for the reply that is due. */
  predicate KeyWorks(c: Core, token: seq<byte>) {
    if c.sendPublicKeyNext then c.config.key.androidPublicKey.Some? else c.config.key.signToken(token).Some?
  }

  /**
   When exactly a packet is rejected, and then it changes nothing: when it is neither the CNXN nor a token that a
   handshake waits for, nor stream traffic of a connected device, or when the key for its reply fails.
   */
  lemma RejectedExactly(c: Core, q: Packet)
    ensures var (next, error) := PacketOutcome(c, q);
            var token := c.state == Handshaking && q.command == Auth && q.arg0 == AUTH_TOKEN;
            && (error.None? <==>
                  || (c.state == Handshaking && q.command == Cnxn)
                  || (token && KeyWorks(c, q.payload))
                  || (c.state == Connected && q.command in {Okay, Wrte, Clse}))
            && (error.Some? ==> next == c && (error.value == KeyError <==> token))
  {
  }

  // ---- From steps to logs ----

  /** What is explained without looking back is explained wherever it stands. */
  lemma ExplainedAnyway(e: Entry, last: Option<Entry>, wider: Option<Entry>, previous: Option<Entry>, config: Config)
    requires Explained(e, last, None, config) && (last.Some? ==> wider == last)
    ensures Explained(e, wider, previous, config)
  {
  }

  lemma ReasonedNoted(log: seq<Entry>, e: Option<Entry>, config: Config)
    requires Reasoned(log, config)
    requires e.Some? ==>
      Explained(e.value, LastOf(log), if log == [] then None else LastOf(log[..|log| - 1]), config)
    ensures Reasoned(Noted(log, e), config)
  {
    if e.Some? {
      assert (log + [e.value])[..|log|] == log;
    }
  }

  lemma LastNoted(log: seq<Entry>, e: Option<Entry>)
    ensures LastOf(Noted(log, e)) == if e.Some? then e else LastOf(log)
    ensures e.Some? ==> Noted(log, e)[..|log|] == log
  {
  }

  /** The entries of one step behind a log. */
  lemma ReasonedStep(log: seq<Entry>, got: Option<Entry>, e: Option<Entry>, p: Option<Entry>, config: Config)
    requires Reasoned(log, config) && (got.Some? ==> got.value.In?)
    requires e.Some? ==> Explained(e.value, got, None, config)
    requires p.Some? ==> if e.Some? then Explained(p.value, e, got, config) else Explained(p.value, got, None, config)
    requires e.Some? ==> got.Some?
    ensures Reasoned(Noted(Noted(Noted(log, got), e), p), config)
  {
    var l1 := Noted(log, got);
    var l2 := Noted(l1, e);
    LastNoted(log, got);
    LastNoted(l1, e);
    ReasonedNoted(log, got, config);
    if e.Some? {
      ExplainedAnyway(e.value, got, LastOf(l1), LastOf(l1[..|l1| - 1]), config);
    }
    ReasonedNoted(l1, e, config);
    if p.Some? && e.None? {
      ExplainedAnyway(p.value, got, LastOf(l2), if l2 == [] then None else LastOf(l2[..|l2| - 1]), config);
    }
    ReasonedNoted(l2, p, config);
  }

  lemma FacesNoted(log: seq<Entry>, e: Option<Entry>)
    ensures Facing(Noted(log, e)) == Turned(Facing(log), e)
    ensures KeyNext(Noted(log, e)) == (KeyNext(log) != (e.Some? && IsReply(e.value)))
    ensures e.Some? && !(e.value.Up? && e.value.event.ConnectedTo?) ==> Accepted(Noted(log, e)) == Accepted(log)
    ensures e.Some? && e.value.Up? && e.value.event.ConnectedTo? && LastOf(log).Some? && LastOf(log).value.In? ==>
            Accepted(Noted(log, e)) == Some(LastOf(log).value.packet)
  {
    if e.Some? {
      assert (log + [e.value])[..|log|] == log;
    }
  }

  /** What the log tells about the session, behind one step. */
  lemma FacesStep(log: seq<Entry>, c: Core, got: Option<Entry>, next: Core)
    requires Speaks(c, got, next)
    requires c.state == Facing(log) && c.sendPublicKeyNext == KeyNext(log)
    requires c.verifyChecksum == Checks(Accepted(log), c.config)
    ensures var after := Noted(Noted(Noted(log, got), NewEvent(c, next)), NewPacket(c, next));
            && next.state == Facing(after) && next.sendPublicKeyNext == KeyNext(after)
            && next.verifyChecksum == Checks(Accepted(after), c.config)
  {
    var l1 := Noted(log, got);
    var l2 := Noted(l1, NewEvent(c, next));
    LastNoted(log, got);
    FacesNoted(log, got);
    FacesNoted(l1, NewEvent(c, next));
    FacesNoted(l2, NewPacket(c, next));
  }

  /** Entries that join the log do not unsettle what has been answered. */
  lemma AnsweredBehind(log: seq<Entry>, more: seq<Entry>, k: nat, config: Config)
    requires k < |log| && Answered(log, k, config)
    ensures Answered(log + more, k, config)
  {
    assert (log + more)[..k] == log[..k];
  }

  function Listed(e: Option<Entry>): seq<Entry> {
    if e.Some? then [e.value] else []
  }

  lemma NotedIs(log: seq<Entry>, got: Option<Entry>, e: Option<Entry>, p: Option<Entry>)
    ensures Noted(Noted(Noted(log, got), e), p) == log + (Listed(got) + Listed(e) + Listed(p))
  {
  }

  /** A packet that joins the log with its answer. */
  lemma AnsweredNow(log: seq<Entry>, c: Core, q: Packet, e: Option<Entry>, p: Option<Entry>)
    requires Replies(c, q, e, p) && c.state == Facing(log) && c.sendPublicKeyNext == KeyNext(log)
    ensures Answered(log + ([In(q)] + Listed(e) + Listed(p)), |log|, c.config)
  {
    var after := log + ([In(q)] + Listed(e) + Listed(p));
    assert after[..|log|] == log && after[|log|] == In(q);
    assert e.Some? ==> after[|log| + 1] == e.value && (p.Some? ==> after[|log| + 2] == p.value);
    assert e.None? && p.Some? ==> after[|log| + 1] == p.value;
  }

  lemma AnsweredStep(log: seq<Entry>, c: Core, got: Option<Entry>, e: Option<Entry>, p: Option<Entry>)
    requires AllAnswered(log, c.config) && c.state == Facing(log) && c.sendPublicKeyNext == KeyNext(log)
    requires (e.Some? ==> e.value.Up?) && (p.Some? ==> p.value.Out?)
    requires got.Some? ==> got.value.In? && Replies(c, got.value.packet, e, p)
    ensures AllAnswered(Noted(Noted(Noted(log, got), e), p), c.config)
  {
    NotedIs(log, got, e, p);
    var more := Listed(got) + Listed(e) + Listed(p);
    forall k: nat | k < |log + more| ensures Answered(log + more, k, c.config) {
      if k < |log| {
        AnsweredBehind(log, more, k, c.config);
      } else if got.Some? && k == |log| {
        AnsweredNow(log, c, got.value.packet, e, p);
      } else {
        assert !(log + more)[k].In?;
      }
    }
  }

  // ---- Whole runs ----

  ghost predicate Kept(r: Run, config: Config) {
    && r.core.config == config
    && r.core.state == Facing(r.log) && r.core.sendPublicKeyNext == KeyNext(r.log)
    && r.core.verifyChecksum == Checks(Accepted(r.log), config)
    && Reasoned(r.log, config) && AllAnswered(r.log, config)
  }

  lemma StepKeeps(r: Run, got: Option<Entry>, next: Core, config: Config)
    requires Kept(r, config) && Speaks(r.core, got, next)
    requires got.Some? ==> Replies(r.core, got.value.packet, NewEvent(r.core, next), NewPacket(r.core, next))
    requires NewEvent(r.core, next).Some? ==> got.Some?
    ensures Kept(Advance(r, got, next), config)
  {
    var e, p := NewEvent(r.core, next), NewPacket(r.core, next);
    ReasonedStep(r.log, got, e, p, config);
    FacesStep(r.log, r.core, got, next);
    AnsweredStep(r.log, r.core, got, e, p);
  }

  lemma {:induction false} ConsumeKeeps(r: Run, config: Config)
    requires Kept(r, config)
    ensures Kept(Consume(r), config)
    decreases |r.unread|
  {
    ParseIsPrompt(r.unread, [], r.core.config.maxPayload, r.core.verifyChecksum);
    var parsed := Parse(r.unread, r.core.config.maxPayload, r.core.verifyChecksum);
    if parsed.Got? {
      var rest := r.(unread := r.unread[parsed.used..]);
      var (next, error) := PacketOutcome(r.core, parsed.packet);
      PacketSpeaks(r.core, parsed.packet);
      StepKeeps(rest, Some(In(parsed.packet)), next, config);
      if error.None? {
        ConsumeKeeps(Advance(rest, Some(In(parsed.packet)), next), config);
      }
    }
  }

  lemma WriteSpeaks(c: Core, id: u32, data: seq<byte>)
    requires id in c.streams
    ensures Speaks(c, None, Written(c, id, data).value) && Written(c, id, data).value.events == c.events
  {
    FlushSpeaks(c.(streams := c.streams[id := c.streams[id].(outbox := c.streams[id].outbox + data)]), id);
  }

  lemma StartSpeaks(c: Core)
    ensures Speaks(c, None, Started(c)) && Started(c).events == c.events
  {
  }

  lemma AckSpeaks(c: Core, id: u32)
    ensures Speaks(c, None, Acked(c, id)) && Acked(c, id).events == c.events
  {
  }

  lemma CloseSpeaks(c: Core, id: u32)
    ensures Speaks(c, None, Closed(c, id)) && Closed(c, id).events == c.events
  {
  }

  lemma CallKeeps(r: Run, op: Op, config: Config)
    requires Kept(r, config) && (op.DoStart? || op.DoAck? || op.DoClose?)
    ensures Kept(Do(r, op), config)
  {
    match op
    case DoStart =>
      StartSpeaks(r.core);
      StepKeeps(r, None, Started(r.core), config);
    case DoAck(id) =>
      AckSpeaks(r.core, id);
      StepKeeps(r, None, Acked(r.core, id), config);
    case DoClose(id) =>
      CloseSpeaks(r.core, id);
      StepKeeps(r, None, Closed(r.core, id), config);
  }

  lemma OpenKeeps(r: Run, service: seq<byte>, config: Config)
    requires Kept(r, config)
    ensures Kept(Do(r, DoOpen(service)), config)
  {
    if r.core.state == Connected {
      StepKeeps(r, None, Opened(r.core, service).value.0, config);
    }
  }

  lemma DoKeeps(r: Run, op: Op, config: Config)
    requires Kept(r, config)
    ensures Kept(Do(r, op), config)
  {
    match op
    case DoStart => CallKeeps(r, op, config);
    case DoOpen(service) => OpenKeeps(r, service, config);
    case DoWrite(id, data) =>
      if id in r.core.streams {
        WriteSpeaks(r.core, id, data);
        StepKeeps(r, None, Written(r.core, id, data).value, config);
      }
    case DoAck(_) => CallKeeps(r, op, config);
    case DoClose(_) => CallKeeps(r, op, config);
    case DoInput(bytes) => ConsumeKeeps(r.(unread := r.unread + bytes), config);
    case DoPollTransmit =>
    case DoPollEvent =>
  }

  lemma {:induction false} RunsKeep(config: Config, ops: seq<Op>)
    ensures Kept(After(config, ops), config)
  {
    if ops != [] {
      RunsKeep(config, ops[..|ops| - 1]);
      DoKeeps(After(config, ops[..|ops| - 1]), ops[|ops| - 1], config);
    }
  }

  lemma {:induction false} ReasonedAt(log: seq<Entry>, config: Config, k: nat)
    requires Reasoned(log, config) && k <= |log|
    ensures Reasoned(log[..k], config)
    decreases |log|
  {
    if k == |log| {
      assert log[..k] == log;
    } else {
      ReasonedAt(log[..|log| - 1], config, k);
      assert log[..|log| - 1][..k] == log[..k];
    }
  }

  function At(log: seq<Entry>, k: int): Option<Entry> {
    if 0 <= k < |log| then Some(log[k]) else None
  }

  /**
   Nothing is said without its reason.  In any run whatever: a ConnectedTo stands behind the CNXN whose banner it
   carries, an approval notice behind a token, and each event of a stream behind the packet of that stream that it
   reports, with its data.  A signature sent is that of the token in front of it, and the public key stands behind its
   notice; CNXN and the other packets have their one form.
   */
  lemma NothingIsSaidUnasked(config: Config, ops: seq<Op>, k: nat)
    requires k < |After(config, ops).log|
    ensures var log := After(config, ops).log; Explained(log[k], At(log, k - 1), At(log, k - 2), config)
  {
    RunsKeep(config, ops);
    var log := After(config, ops).log;
    ReasonedAt(log, config, k + 1);
    assert log[..k + 1][..k] == log[..k];
  }

  /**
   Every packet of the handshake has its answer.  In any run, while handshaking: a CNXN is followed by its ConnectedTo,
   and a token by its signature, or by the notice and the public key, in turn, unless the key fails.
   */
  lemma HandshakeIsAnswered(config: Config, ops: seq<Op>, k: nat)
    requires k < |After(config, ops).log|
    ensures Answered(After(config, ops).log, k, config)
  {
    RunsKeep(config, ops);
  }

  /**
   In any run checksums are verified exactly until a CNXN is accepted that makes both ends speak a version without.
   */
  lemma ChecksumsNegotiated(config: Config, ops: seq<Op>)
    ensures var r := After(config, ops);
            && r.core.config == config
            && (r.core.verifyChecksum <==>
                  Accepted(r.log).None? || Accepted(r.log).value.arg0 < 0x0100_0001 || config.version < 0x0100_0001)
  {
    RunsKeep(config, ops);
  }

  lemma {:induction false} AcceptedIsConnection(log: seq<Entry>, config: Config)
    requires Reasoned(log, config)
    ensures Accepted(log).Some? ==> Accepted(log).value.command == Cnxn
    ensures (exists j | 0 <= j < |log| :: log[j].Up? && log[j].event.ConnectedTo?) <==> Accepted(log).Some?
  {
    if log != [] {
      var before, last := log[..|log| - 1], log[|log| - 1];
      AcceptedIsConnection(before, config);
      if exists j | 0 <= j < |before| :: before[j].Up? && before[j].event.ConnectedTo? {
        var j :| 0 <= j < |before| && before[j].Up? && before[j].event.ConnectedTo?;
        assert log[j] == before[j];
      }
      if !(last.Up? && last.event.ConnectedTo?) {
        if exists j | 0 <= j < |log| :: log[j].Up? && log[j].event.ConnectedTo? {
          var j :| 0 <= j < |log| && log[j].Up? && log[j].event.ConnectedTo?;
          assert before[j] == log[j];
        }
      }
    }
  }
}
