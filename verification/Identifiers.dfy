/**
 The identifiers that a session hands out (adb_proto/src/session.rs:171-181).  They are counted without a check, so
 that a run that opens enough streams sees them again.  Runs are any calls whatever; nothing bounds the opens.
 */
module Identifiers {
  import opened Bytes
  import opened Message
  import opened Session
  import opened Lifecycle
  import opened Handshake

  /** How many 32-bit words there are. */
  const WORDS: nat := 0x1_0000_0000

  /** The identifier of the n-th stream opened, counting from zero. */
  function NthId(n: nat): u32 {
    if n == 0 then 1 else Successor(NthId(n - 1))
  }

  lemma NextModulo(x: nat)
    ensures (x + 1) % WORDS == if x % WORDS == U32_MAX then 0 else x % WORDS + 1
  {
  }

  lemma {:induction false} NthIdClosed(n: nat)
    ensures NthId(n) == (n + 1) % WORDS
  {
    if n > 0 {
      NthIdClosed(n - 1);
      NextModulo(n);
    }
  }

  /** The identifiers of the OPENs among some packets, in order. */
  function OpenIds(ps: seq<Packet>): seq<u32> {
    if ps == [] then []
    else
      var last := ps[|ps| - 1];
      if last.command == Open then OpenIds(ps[..|ps| - 1]) + [last.arg0] else OpenIds(ps[..|ps| - 1])
  }

  lemma OpenIdsGrow(ps: seq<Packet>, p: Packet)
    ensures OpenIds(ps + [p]) == if p.command == Open then OpenIds(ps) + [p.arg0] else OpenIds(ps)
  {
    assert (ps + [p])[..|ps|] == ps;
  }

  function IdsOf(log: seq<Entry>): seq<u32> {
    OpenIds(PacketsOf(log))
  }

  lemma IdsNoted(log: seq<Entry>, e: Option<Entry>)
    ensures IdsOf(Noted(log, e)) ==
            if e.Some? && e.value.Out? && e.value.packet.command == Open then IdsOf(log) + [e.value.packet.arg0]
            else IdsOf(log)
  {
    if e.Some? {
      assert (log + [e.value])[..|log|] == log;
      if e.value.Out? {
        OpenIdsGrow(PacketsOf(log), e.value.packet);
      }
    }
  }

  lemma IdsAdvanced(r: Run, got: Option<Entry>, next: Core)
    requires got.Some? ==> got.value.In?
    ensures var p := NewPacket(r.core, next);
            IdsOf(Advance(r, got, next).log) ==
              if p.Some? && p.value.packet.command == Open then IdsOf(r.log) + [p.value.packet.arg0] else IdsOf(r.log)
  {
    IdsNoted(r.log, got);
    IdsNoted(Noted(r.log, got), NewEvent(r.core, next));
    IdsNoted(Noted(Noted(r.log, got), NewEvent(r.core, next)), NewPacket(r.core, next));
  }

  /** The identifiers handed out so far are the first ones, and the next one is next. */
  predicate Numbered(r: Run) {
    && r.core.nextLocalId == NthId(|IdsOf(r.log)|)
    && forall i | 0 <= i < |IdsOf(r.log)| :: IdsOf(r.log)[i] == NthId(i)
  }

  lemma {:induction false} ConsumeNumbered(r: Run)
    requires Numbered(r)
    ensures Numbered(Consume(r))
    decreases |r.unread|
  {
    ParseIsPrompt(r.unread, [], r.core.config.maxPayload, r.core.verifyChecksum);
    var parsed := Parse(r.unread, r.core.config.maxPayload, r.core.verifyChecksum);
    if parsed.Got? {
      var rest := r.(unread := r.unread[parsed.used..]);
      var (next, error) := PacketOutcome(r.core, parsed.packet);
      PacketIsOrdinary(r.core, parsed.packet);
      IdsAdvanced(rest, Some(In(parsed.packet)), next);
      if error.None? {
        ConsumeNumbered(Advance(rest, Some(In(parsed.packet)), next));
      }
    }
  }

  lemma OpenNumbered(r: Run, service: seq<byte>)
    requires Numbered(r)
    ensures Numbered(Do(r, DoOpen(service)))
  {
    if Opened(r.core, service).Ok? {
      IdsAdvanced(r, None, Opened(r.core, service).value.0);
    }
  }

  /** A step that opens nothing. */
  lemma OrdinaryNumbered(r: Run, next: Core)
    requires Numbered(r) && Ordinary(r.core, next)
    ensures Numbered(Advance(r, None, next))
  {
    IdsAdvanced(r, None, next);
  }

  lemma DoNumbered(r: Run, op: Op)
    requires Numbered(r)
    ensures Numbered(Do(r, op))
  {
    match op
    case DoStart => IdsAdvanced(r, None, Started(r.core));
    case DoOpen(service) => OpenNumbered(r, service);
    case DoWrite(id, data) =>
      WriteIsOrdinary(r.core, id, data);
      if Written(r.core, id, data).Ok? {
        OrdinaryNumbered(r, Written(r.core, id, data).value);
      }
    case DoAck(id) => OrdinaryNumbered(r, Acked(r.core, id));
    case DoClose(id) => OrdinaryNumbered(r, Closed(r.core, id));
    case DoInput(bytes) => ConsumeNumbered(r.(unread := r.unread + bytes));
    case DoPollTransmit =>
    case DoPollEvent =>
  }

  /** In any run the i-th OPEN carries the i-th identifier, whatever was opened, closed and started in between. */
  lemma {:induction false} OpensAreNumbered(config: Config, ops: seq<Op>)
    ensures var r := After(config, ops);
            && r.core.nextLocalId == NthId(|IdsOf(r.log)|)
            && forall i | 0 <= i < |IdsOf(r.log)| :: IdsOf(r.log)[i] == NthId(i)
  {
    if ops != [] {
      OpensAreNumbered(config, ops[..|ops| - 1]);
      DoNumbered(After(config, ops[..|ops| - 1]), ops[|ops| - 1]);
    }
  }

  /** Every identifier is non-zero, and no two are the same. */
  predicate Sparing(ids: seq<u32>) {
    && (forall i | 0 <= i < |ids| :: ids[i] != 0)
    && (forall i, j | 0 <= i < j < |ids| :: ids[i] != ids[j])
  }

  predicate Counted(ids: seq<u32>) {
    forall i | 0 <= i < |ids| :: ids[i] == (i + 1) % WORDS
  }

  lemma CountedIds(config: Config, ops: seq<Op>)
    ensures Counted(IdsOf(After(config, ops).log))
  {
    OpensAreNumbered(config, ops);
    var ids := IdsOf(After(config, ops).log);
    forall i: nat | i < |ids| ensures ids[i] == (i + 1) % WORDS {
      NthIdClosed(i);
    }
  }

  lemma BelowWords(ids: seq<u32>, i: nat)
    requires Counted(ids) && i < |ids| < WORDS
    ensures ids[i] == i + 1
  {
  }

  lemma CountedSparing(ids: seq<u32>)
    requires Counted(ids)
    ensures Sparing(ids) <==> |ids| < WORDS
  {
    if |ids| < WORDS {
      forall i: nat | i < |ids| ensures ids[i] == i + 1 {
        BelowWords(ids, i);
      }
    } else {
      assert ids[WORDS - 1] == WORDS % WORDS;
    }
  }

  lemma WholeTurn(i: nat)
    ensures (i + WORDS + 1) % WORDS == (i + 1) % WORDS
  {
  }

  /**
   When exactly identifiers run out: those of any run are non-zero and new if and only if fewer than 2^32 were opened.
   */
  lemma IdsRunOut(config: Config, ops: seq<Op>)
    ensures var ids := IdsOf(After(config, ops).log); Sparing(ids) <==> |ids| < WORDS
  {
    CountedIds(config, ops);
    CountedSparing(IdsOf(After(config, ops).log));
  }

  /** And then they come again: the identifier of a stream opened 2^32 opens later is the same. */
  lemma IdsComeAgain(config: Config, ops: seq<Op>, i: nat)
    requires i + WORDS < |IdsOf(After(config, ops).log)|
    ensures var ids := IdsOf(After(config, ops).log); ids[i + WORDS] == ids[i]
  {
    CountedIds(config, ops);
    WholeTurn(i);
  }
}
