/**
 What a device writes in a `sync:` reply, and that the reader gives it back (adb_proto/src/sync.rs:106-271).
 The fields that the reader skips may hold anything.
 */
module SyncRoundTrip {
  import opened Bytes
  import opened Incremental
  import opened SyncReply
  import opened SyncStream

  /** `frame`: an identifier, a word, and a body. */
  function Frame(id: seq<byte>, arg: u32, body: seq<byte>): (r: seq<byte>)
    requires |id| == 4
    ensures |r| == 8 + |body|
  {
    id + Le32(arg) + body
  }

  function DataFrame(chunk: seq<byte>): (r: seq<byte>)
    requires |chunk| <= U32_MAX
    ensures |r| == 8 + |chunk|
  {
    Frame(DATA, |chunk|, chunk)
  }

  function DoneFrame(mtime: u32): (r: seq<byte>)
    ensures |r| == 8
  {
    Frame(DONE, mtime, [])
  }

  /** The bytes of the skipped v2 fields. */
  type Padding = s: seq<byte> | |s| == DENT_V2_LEN witness seq(76, _ => 0)

  predicate Expressible(kind: Kind, e: SyncEvent) {
    && Belongs(kind, e)
    && (e.Stat? && kind.StatKind? ==> e.size <= U32_MAX && 0 <= e.mtime <= U32_MAX && e.error == 0)
    && (e.Dent? && kind.ListKind? ==> e.size <= U32_MAX && 0 <= e.mtime <= U32_MAX && e.error == 0)
  }

  function ShortFields(id: seq<byte>, mode: u32, size: u32, mtime: u32): seq<byte> {
    id + Le32(mode) + Le32(size) + Le32(mtime)
  }

  function LongFields(id: seq<byte>, mode: u32, size: u64, mtime: i64, error: u32, pad: Padding): seq<byte> {
    id + Le32(error) + pad[..16] + Le32(mode) + pad[16..28] + Le64(size) + pad[28..36] + SignedLe64(mtime) + pad[36..44]
  }

  /** The reply record for an event. */
  function Written(kind: Kind, e: SyncEvent, pad: Padding): seq<byte>
    requires Expressible(kind, e)
  {
    match e
    case Stat(mode, size, mtime, error) =>
      if kind.StatKind? then ShortFields(STAT, mode, size, mtime) else LongFields(STA2, mode, size, mtime, error, pad)
    case Dent(mode, size, mtime, error, name) =>
      if kind.ListKind? then ShortFields(DENT, mode, size, mtime) + Le32(|name|) + name
      else LongFields(DNT2, mode, size, mtime, error, pad) + Le32(|name|) + name
    case Data(bytes) => DataFrame(bytes)
    case Done => DONE + pad[..DoneLen(kind) - 4]
    case Fail(text) => Frame(FAIL, |text|, text)
  }

  lemma ShortFieldsRead(id: seq<byte>, mode: u32, size: u32, mtime: u32, tail: seq<byte>)
    requires |id| == 4
    ensures var b := ShortFields(id, mode, size, mtime) + tail;
            b[..4] == id && ShortStat(b) == Stat(mode, size, mtime, 0)
  {
    WordOfLe32(mode);
    WordOfLe32(size);
    WordOfLe32(mtime);
  }

  lemma LongWordRead(b: seq<byte>, at: nat, x: u64)
    requires at + 8 <= |b| && b[at..at + 8] == Le64(x)
    ensures LongWord(b, at) == x
  {
    WordOfLe32(x % 0x1_0000_0000);
    WordOfLe32(x / 0x1_0000_0000);
    var w := b[at..at + 8];
    assert forall i | 0 <= i < 8 :: b[at + i] == w[i];
    assert Word(b, at) == Word(w, 0) == Word(Le32(x % 0x1_0000_0000), 0);
    assert Word(b, at + 4) == Word(w, 4) == Word(Le32(x / 0x1_0000_0000), 0);
  }

  lemma WordRead(b: seq<byte>, at: nat, x: u32)
    requires at + 4 <= |b| && b[at..at + 4] == Le32(x)
    ensures Word(b, at) == x
  {
    WordOfLe32(x);
    var w := b[at..at + 4];
    assert Word(b, at) == Word(w, 0);
  }

  lemma LongFieldsRead(id: seq<byte>, mode: u32, size: u64, mtime: i64, error: u32, pad: Padding, tail: seq<byte>)
    requires |id| == 4
    ensures var b := LongFields(id, mode, size, mtime, error, pad) + tail;
            && |LongFields(id, mode, size, mtime, error, pad)| == STAT_V2_LEN
            && b[..4] == id && LongStat(b) == Stat(mode, size, mtime, error)
  {
    var b := LongFields(id, mode, size, mtime, error, pad) + tail;
    assert b[4..8] == Le32(error);
    WordRead(b, 4, error);
    assert b[24..28] == Le32(mode);
    WordRead(b, 24, mode);
    assert b[40..48] == Le64(size);
    LongWordRead(b, 40, size);
    assert b[56..64] == SignedLe64(mtime);
    LongWordRead(b, 56, if mtime >= 0 then mtime else mtime + 0x1_0000_0000_0000_0000);
  }

  /** A header whose last word is the length of the body behind it. */
  lemma RecordRead(fixed: seq<byte>, body: seq<byte>, tail: seq<byte>, limit: nat)
    requires |body| <= limit <= U32_MAX
    ensures var b := fixed + Le32(|body|) + body + tail;
            && RecordAt(b, |fixed| + 4, limit) == Whole(|fixed| + 4 + |body|)
            && b[|fixed| + 4..|fixed| + 4 + |body|] == body
  {
    var b := fixed + Le32(|body|) + body + tail;
    assert b[|fixed|..|fixed| + 4] == Le32(|body|);
    WordRead(b, |fixed|, |body|);
  }

  lemma StatRead(kind: Kind, e: SyncEvent, pad: Padding, tail: seq<byte>)
    requires Expressible(kind, e) && e.Stat?
    ensures ReplyOf(kind, Written(kind, e, pad) + tail) == Got(|Written(kind, e, pad)|, e)
  {
    if kind.StatKind? {
      ShortFieldsRead(STAT, e.mode, e.size, e.mtime, tail);
    } else {
      LongFieldsRead(STA2, e.mode, e.size, e.mtime, e.error, pad, tail);
    }
  }

  lemma ShortDentRead(e: SyncEvent, pad: Padding, tail: seq<byte>)
    requires Expressible(ListKind, e) && e.Dent?
    ensures ReplyOf(ListKind, Written(ListKind, e, pad) + tail) == Got(|Written(ListKind, e, pad)|, e)
  {
    var fixed, rest := ShortFields(DENT, e.mode, e.size, e.mtime), Le32(|e.name|) + e.name + tail;
    assert Written(ListKind, e, pad) + tail == fixed + rest;
    RecordRead(fixed, e.name, tail, MAX_NAME);
    ShortFieldsRead(DENT, e.mode, e.size, e.mtime, rest);
    assert fixed + Le32(|e.name|) + e.name + tail == fixed + rest;
    assert ReplyOf(ListKind, fixed + rest) == DentReply(fixed + rest);
  }

  lemma LongDentRead(e: SyncEvent, pad: Padding, tail: seq<byte>)
    requires Expressible(List2Kind, e) && e.Dent?
    ensures ReplyOf(List2Kind, Written(List2Kind, e, pad) + tail) == Got(|Written(List2Kind, e, pad)|, e)
  {
    var fixed, rest := LongFields(DNT2, e.mode, e.size, e.mtime, e.error, pad), Le32(|e.name|) + e.name + tail;
    assert Written(List2Kind, e, pad) + tail == fixed + rest;
    RecordRead(fixed, e.name, tail, MAX_NAME);
    LongFieldsRead(DNT2, e.mode, e.size, e.mtime, e.error, pad, rest);
    assert fixed + Le32(|e.name|) + e.name + tail == fixed + rest;
    assert ReplyOf(List2Kind, fixed + rest) == Dent2Reply(fixed + rest);
  }

  lemma BodyRead(kind: Kind, e: SyncEvent, pad: Padding, tail: seq<byte>)
    requires Expressible(kind, e) && (e.Data? || e.Fail? || e.Done?)
    ensures ReplyOf(kind, Written(kind, e, pad) + tail) == Got(|Written(kind, e, pad)|, e)
  {
    var b := Written(kind, e, pad) + tail;
    if e.Data? {
      RecordRead(DATA, e.bytes, tail, MAX_DATA_CHUNK);
      assert b[..4] == DATA;
    } else if e.Fail? {
      RecordRead(FAIL, e.text, tail, MAX_MESSAGE);
      assert b[..4] == FAIL;
    } else {
      assert b[..4] == DONE;
    }
  }

  /** One record is read back as the event it was written for, whatever follows it. */
  lemma ReplyOfWritten(kind: Kind, e: SyncEvent, pad: Padding, tail: seq<byte>)
    requires Expressible(kind, e)
    ensures ReplyOf(kind, Written(kind, e, pad) + tail) == Got(|Written(kind, e, pad)|, e)
  {
    match e
    case Stat(_, _, _, _) => StatRead(kind, e, pad, tail);
    case Dent(_, _, _, _, _) => if kind.ListKind? { ShortDentRead(e, pad, tail); } else { LongDentRead(e, pad, tail); }
    case _ => BodyRead(kind, e, pad, tail);
  }

  function WrittenAll(kind: Kind, events: seq<SyncEvent>, pad: Padding): seq<byte>
    requires forall e <- events :: Expressible(kind, e)
  {
    if events == [] then [] else Written(kind, events[0], pad) + WrittenAll(kind, events[1..], pad)
  }

  lemma DrainOne(kind: Kind, s: Progress, e: SyncEvent, pad: Padding, rest: seq<byte>)
    requires Prompt(Reading(kind)) && !s.complete && Expressible(kind, e)
    ensures Drain(Reading(kind), s, Written(kind, e, pad) + rest) ==
            Drain(Reading(kind), Progress(Terminal(e), s.events + [e]), rest)
  {
    var first := Written(kind, e, pad);
    ReplyOfWritten(kind, e, pad, rest);
    assert (first + rest)[|first|..] == rest;
  }

  /** Entries and then one terminal event. */
  predicate EndsOnce(events: seq<SyncEvent>) {
    events != [] && forall i | 0 <= i < |events| :: Terminal(events[i]) <==> i == |events| - 1
  }

  lemma WrittenOne(kind: Kind, e: SyncEvent, pad: Padding)
    requires Expressible(kind, e)
    ensures WrittenAll(kind, [e], pad) == Written(kind, e, pad)
  {
    assert [e][1..] == [];
  }

  lemma DrainLast(kind: Kind, s: Progress, e: SyncEvent, pad: Padding, tail: seq<byte>)
    requires Prompt(Reading(kind)) && !s.complete && Expressible(kind, e) && Terminal(e)
    ensures Drain(Reading(kind), s, Written(kind, e, pad) + tail) == Outcome(Progress(true, s.events + [e]), tail, None)
  {
    DrainOne(kind, s, e, pad, tail);
    CompleteIsFinal(kind, Progress(true, s.events + [e]), tail);
  }

  lemma DrainNext(kind: Kind, s: Progress, e: SyncEvent, others: seq<byte>, pad: Padding, tail: seq<byte>)
    requires Prompt(Reading(kind)) && !s.complete && Expressible(kind, e) && !Terminal(e)
    ensures Drain(Reading(kind), s, Written(kind, e, pad) + others + tail) ==
            Drain(Reading(kind), Progress(false, s.events + [e]), others + tail)
  {
    DrainOne(kind, s, e, pad, others + tail);
    Regrouped(Written(kind, e, pad), others, tail);
  }

  lemma {:induction false} DrainOfWritten(
      kind: Kind, s: Progress, events: seq<SyncEvent>, pad: Padding, tail: seq<byte>)
    requires Prompt(Reading(kind)) && !s.complete && EndsOnce(events)
    requires forall e <- events :: Expressible(kind, e)
    ensures Drain(Reading(kind), s, WrittenAll(kind, events, pad) + tail) ==
            Outcome(Progress(true, s.events + events), tail, None)
    decreases |events|
  {
    var e := events[0];
    if |events| == 1 {
      assert events == [e];
      WrittenOne(kind, e, pad);
      DrainLast(kind, s, e, pad, tail);
    } else {
      var others := events[1..];
      ReplyTail(events);
      DrainNext(kind, s, e, WrittenAll(kind, others, pad), pad, tail);
      DrainOfWritten(kind, Progress(false, s.events + [e]), others, pad, tail);
      Regrouped(s.events, [e], others);
      assert [e] + others == events;
    }
  }

  lemma ReplyTail(events: seq<SyncEvent>)
    requires EndsOnce(events) && |events| > 1
    ensures EndsOnce(events[1..]) && !Terminal(events[0])
  {
    var others := events[1..];
    forall i | 0 <= i < |others| ensures Terminal(others[i]) <==> i == |others| - 1 {
      assert others[i] == events[i + 1];
    }
  }

  /** Any entries and an end, in any fragments: the reader reports exactly them. */
  lemma RepliesRoundTrip(kind: Kind, events: seq<SyncEvent>, pad: Padding, tail: seq<byte>, chunks: seq<seq<byte>>)
    requires forall e <- events :: Expressible(kind, e)
    requires EndsOnce(events)
    requires Flatten(chunks) == WrittenAll(kind, events, pad) + tail
    ensures Fragments(kind, chunks) == (Progress(true, events), None)
  {
    FragmentsInvisible(kind, chunks);
    DrainOfWritten(kind, FRESH, events, pad, tail);
    assert [] + events == events;
  }
}
