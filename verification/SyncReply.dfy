/**
 Replies of the `sync:` service (adb_proto/src/sync.rs): one look at the front of the buffered bytes, the incremental
 reader, and the frames it undoes.
 */
module SyncReply {
  import opened Bytes
  import opened Incremental

  const MAX_DATA_CHUNK: nat := 0x1_0000
  const MAX_NAME: nat := 1024
  const MAX_MESSAGE: nat := 4096
  const STAT_V2_LEN: nat := 72
  const DENT_V2_LEN: nat := 76

  const STAT: seq<byte> := [0x53, 0x54, 0x41, 0x54]
  const STA2: seq<byte> := [0x53, 0x54, 0x41, 0x32]
  const DENT: seq<byte> := [0x44, 0x45, 0x4E, 0x54]
  const DNT2: seq<byte> := [0x44, 0x4E, 0x54, 0x32]
  const DATA: seq<byte> := [0x44, 0x41, 0x54, 0x41]
  const DONE: seq<byte> := [0x44, 0x4F, 0x4E, 0x45]
  const FAIL: seq<byte> := [0x46, 0x41, 0x49, 0x4C]

  type i64 = x: int | -0x8000_0000_0000_0000 <= x < 0x8000_0000_0000_0000

  /** `i64::from_le_bytes`: two's complement. */
  function SignedWord(b: seq<byte>, at: nat): i64
    requires at + 8 <= |b|
  {
    var x := LongWord(b, at);
    if x < 0x8000_0000_0000_0000 then x else x - 0x1_0000_0000_0000_0000
  }

  function SignedLe64(x: i64): (r: seq<byte>)
    ensures |r| == 8
  {
    Le64(if x >= 0 then x else x + 0x1_0000_0000_0000_0000)
  }

  datatype Kind = StatKind | ListKind | RecvKind | Stat2Kind | List2Kind

  datatype SyncEvent =
    | Stat(mode: u32, size: u64, mtime: i64, error: u32)
    | Dent(mode: u32, size: u64, mtime: i64, error: u32, name: seq<byte>)
    | Data(bytes: seq<byte>)
    | Done
    | Fail(text: seq<byte>)

  datatype SyncError = NameTooLong | DataTooLong | MessageTooLong | Unexpected(id: seq<byte>)

  predicate Terminal(e: SyncEvent) {
    e.Stat? || e.Done? || e.Fail?
  }

  datatype Reply = Short | Bad(error: SyncError) | Got(used: nat, event: SyncEvent)

  /** A record with a header whose last word says how many bytes follow it. */
  datatype Record = Partial | TooLong | Whole(len: nat)

  function RecordAt(b: seq<byte>, header: nat, limit: nat): (r: Record)
    requires header >= 4
    ensures r.Whole? ==> header <= r.len <= |b|
  {
    if |b| < header then Partial
    else
      var n := Word(b, header - 4);
      if n > limit then TooLong else if |b| < header + n then Partial else Whole(header + n)
  }

  /** The v1 fields, all 32 bits wide. */
  function ShortStat(b: seq<byte>): SyncEvent
    requires |b| >= 16
  {
    Stat(Word(b, 4), Word(b, 8), Word(b, 12), 0)
  }

  /** The v2 fields, of which five are kept. */
  function LongStat(b: seq<byte>): SyncEvent
    requires |b| >= STAT_V2_LEN
  {
    Stat(Word(b, 24), LongWord(b, 40), SignedWord(b, 56), Word(b, 4))
  }

  function Named(e: SyncEvent, name: seq<byte>): SyncEvent
    requires e.Stat?
  {
    Dent(e.mode, e.size, e.mtime, e.error, name)
  }

  /** A listing ends with a whole zeroed entry that carries the identifier of DONE. */
  function DoneLen(kind: Kind): (n: nat)
    ensures n >= 8
  {
    match kind
    case ListKind => 20
    case List2Kind => DENT_V2_LEN
    case _ => 8
  }

  function StatReply(b: seq<byte>): Reply {
    if |b| < 16 then Short else Got(16, ShortStat(b))
  }

  function Stat2Reply(b: seq<byte>): Reply {
    if |b| < STAT_V2_LEN then Short else Got(STAT_V2_LEN, LongStat(b))
  }

  function DentReply(b: seq<byte>): Reply {
    match RecordAt(b, 20, MAX_NAME)
    case Partial => Short
    case TooLong => Bad(NameTooLong)
    case Whole(len) => Got(len, Named(ShortStat(b), b[20..len]))
  }

  function Dent2Reply(b: seq<byte>): Reply {
    match RecordAt(b, DENT_V2_LEN, MAX_NAME)
    case Partial => Short
    case TooLong => Bad(NameTooLong)
    case Whole(len) => Got(len, Named(LongStat(b), b[DENT_V2_LEN..len]))
  }

  function DataReply(b: seq<byte>): Reply {
    match RecordAt(b, 8, MAX_DATA_CHUNK)
    case Partial => Short
    case TooLong => Bad(DataTooLong)
    case Whole(len) => Got(len, Data(b[8..len]))
  }

  function DoneReply(kind: Kind, b: seq<byte>): Reply {
    if |b| < DoneLen(kind) then Short else Got(DoneLen(kind), Done)
  }

  function FailReply(b: seq<byte>): Reply {
    match RecordAt(b, 8, MAX_MESSAGE)
    case Partial => Short
    case TooLong => Bad(MessageTooLong)
    case Whole(len) => Got(len, Fail(b[8..len]))
  }

  /** One look at the front of the buffer. */
  function ReplyOf(kind: Kind, b: seq<byte>): Reply {
    if |b| < 4 then Short
    else
      var id := b[..4];
      if id == STAT && kind.StatKind? then StatReply(b)
      else if id == STA2 && kind.Stat2Kind? then Stat2Reply(b)
      else if id == DENT && kind.ListKind? then DentReply(b)
      else if id == DNT2 && kind.List2Kind? then Dent2Reply(b)
      else if id == DATA && kind.RecvKind? then DataReply(b)
      else if id == DONE && !kind.StatKind? && !kind.Stat2Kind? then DoneReply(kind, b)
      else if id == FAIL then FailReply(b)
      else Bad(Unexpected(id))
  }

  // ---- Bytes that arrive later ----

  lemma RecordInside(a: seq<byte>, b: seq<byte>, header: nat, limit: nat)
    requires header >= 4
    ensures !RecordAt(a, header, limit).Partial? ==> RecordAt(a + b, header, limit) == RecordAt(a, header, limit)
    ensures RecordAt(a, header, limit).Whole? ==>
      (a + b)[header..RecordAt(a, header, limit).len] == a[header..RecordAt(a, header, limit).len]
  {
    if |a| >= header {
      WordInside(a, b, header - 4);
    }
  }

  lemma ShortStatInside(a: seq<byte>, b: seq<byte>)
    requires |a| >= 16
    ensures ShortStat(a + b) == ShortStat(a)
  {
    WordInside(a, b, 4);
    WordInside(a, b, 8);
    WordInside(a, b, 12);
  }

  lemma LongStatInside(a: seq<byte>, b: seq<byte>)
    requires |a| >= STAT_V2_LEN
    ensures LongStat(a + b) == LongStat(a)
  {
    WordInside(a, b, 4);
    WordInside(a, b, 24);
    WordInside(a, b, 40);
    WordInside(a, b, 44);
    WordInside(a, b, 56);
    WordInside(a, b, 60);
  }

  /** A reply to `n` bytes, and the reply once there are more. */
  predicate Settled(r: Reply, n: nat, later: Reply) {
    && (r.Got? ==> 8 <= r.used <= n)
    && (!r.Short? ==> later == r)
  }

  lemma StatSettled(a: seq<byte>, b: seq<byte>)
    ensures Settled(StatReply(a), |a|, StatReply(a + b))
  {
    if |a| >= 16 {
      ShortStatInside(a, b);
    }
  }

  lemma Stat2Settled(a: seq<byte>, b: seq<byte>)
    ensures Settled(Stat2Reply(a), |a|, Stat2Reply(a + b))
  {
    if |a| >= STAT_V2_LEN {
      LongStatInside(a, b);
    }
  }

  lemma DentSettled(a: seq<byte>, b: seq<byte>)
    ensures Settled(DentReply(a), |a|, DentReply(a + b))
  {
    RecordInside(a, b, 20, MAX_NAME);
    if |a| >= 20 {
      ShortStatInside(a, b);
    }
  }

  lemma Dent2Settled(a: seq<byte>, b: seq<byte>)
    ensures Settled(Dent2Reply(a), |a|, Dent2Reply(a + b))
  {
    RecordInside(a, b, DENT_V2_LEN, MAX_NAME);
    if |a| >= DENT_V2_LEN {
      LongStatInside(a, b);
    }
  }

  lemma DataSettled(a: seq<byte>, b: seq<byte>)
    ensures Settled(DataReply(a), |a|, DataReply(a + b))
  {
    RecordInside(a, b, 8, MAX_DATA_CHUNK);
  }

  lemma FailSettled(a: seq<byte>, b: seq<byte>)
    ensures Settled(FailReply(a), |a|, FailReply(a + b))
  {
    RecordInside(a, b, 8, MAX_MESSAGE);
  }

  /** A reply that is decided is decided for good, and uses only bytes that are there. */
  lemma ReplyIsPrompt(kind: Kind, a: seq<byte>, b: seq<byte>)
    ensures ReplyOf(kind, a).Got? ==> 8 <= ReplyOf(kind, a).used <= |a|
    ensures !ReplyOf(kind, a).Short? ==> ReplyOf(kind, a + b) == ReplyOf(kind, a)
  {
    if |a| >= 4 {
      assert (a + b)[..4] == a[..4];
      var id := a[..4];
      if id == STAT && kind.StatKind? {
        StatSettled(a, b);
      } else if id == STA2 && kind.Stat2Kind? {
        Stat2Settled(a, b);
      } else if id == DENT && kind.ListKind? {
        DentSettled(a, b);
      } else if id == DNT2 && kind.List2Kind? {
        Dent2Settled(a, b);
      } else if id == DATA && kind.RecvKind? {
        DataSettled(a, b);
      } else if id == FAIL {
        FailSettled(a, b);
      }
    }
  }

  // ---- The reader ----

  /** What a reader has produced. */
  datatype Progress = Progress(complete: bool, events: seq<SyncEvent>)

  function ReadStep(kind: Kind, s: Progress, unread: seq<byte>): Step<Progress, SyncError> {
    if s.complete then More
    else
      match ReplyOf(kind, unread)
      case Short => More
      case Bad(e) => Fault(0, s, e)
      case Got(n, e) => Took(n, Progress(Terminal(e), s.events + [e]))
  }

  ghost function Reading(kind: Kind): (Progress, seq<byte>) -> Step<Progress, SyncError> {
    (s: Progress, unread: seq<byte>) => ReadStep(kind, s, unread)
  }

  lemma ReadingIsPrompt(kind: Kind)
    ensures Prompt(Reading(kind))
  {
    forall s, a, b ensures FinalAt(Reading(kind), s, a, b) {
      ReplyIsPrompt(kind, a, b);
    }
  }

  const FRESH := Progress(false, [])

  /** One turn of draining. */
  lemma DrainTurn(kind: Kind, s: Progress, unread: seq<byte>)
    ensures Prompt(Reading(kind))
    ensures var r := ReadStep(kind, s, unread);
            && (r.More? ==> Drain(Reading(kind), s, unread) == Outcome(s, unread, None))
            && (r.Fault? ==> r.used == 0 && r.next == s &&
                             Drain(Reading(kind), s, unread) == Outcome(s, unread, Some(r.error)))
            && (r.Took? ==> 0 < r.used <= |unread| &&
                            Drain(Reading(kind), s, unread) == Drain(Reading(kind), r.next, unread[r.used..]))
  {
    ReadingIsPrompt(kind);
    assert FinalAt(Reading(kind), s, unread, []);
    assert unread[0..] == unread;
  }

  class SyncReader {
    const kind: Kind
    var bytes: seq<byte>
    var complete: bool

    constructor (kind: Kind)
      ensures this.kind == kind && bytes == [] && !complete
    {
      this.kind := kind;
      bytes, complete := [], false;
    }

    method Push(more: seq<byte>)
      modifies this`bytes
      ensures bytes == if complete then old(bytes) else old(bytes) + more
    {
      if !complete {
        bytes := bytes + more;
      }
    }

    method NextEvent() returns (r: Result<Option<SyncEvent>, SyncError>)
      modifies this`bytes, this`complete
      ensures match ReadStep(kind, Progress(old(complete), []), old(bytes))
              case More => r == Ok(None) && bytes == old(bytes) && complete == old(complete)
              case Fault(_, _, e) => r == Err(e) && bytes == old(bytes) && complete == old(complete)
              case Took(n, t) =>
                && n <= |old(bytes)| && bytes == old(bytes)[n..]
                && complete == t.complete && r == Ok(Some(t.events[0]))
    {
      ReplyIsPrompt(kind, bytes, []);
      if complete {
        return Ok(None);
      }
      var reply := ReplyOf(kind, bytes);
      if reply.Short? {
        return Ok(None);
      }
      if reply.Bad? {
        return Err(reply.error);
      }
      bytes := bytes[reply.used..];
      complete := Terminal(reply.event);
      return Ok(Some(reply.event));
    }

    /** Feed one fragment and take every event it completes. */
    method Advance(more: seq<byte>) returns (events: seq<SyncEvent>, error: Option<SyncError>)
      modifies this`bytes, this`complete
      ensures Prompt(Reading(kind))
      ensures var unread := if old(complete) then old(bytes) else old(bytes) + more;
              var o := Drain(Reading(kind), Progress(old(complete), []), unread);
              events == o.state.events && complete == o.state.complete && bytes == o.rest && error == o.error
    {
      ReadingIsPrompt(kind);
      Push(more);
      events, error := [], None;
      ghost var all := Drain(Reading(kind), Progress(complete, []), bytes);
      var going := true;
      while going
        invariant going ==> error.None? && all == Drain(Reading(kind), Progress(complete, events), bytes)
        invariant !going ==> all == Outcome(Progress(complete, events), bytes, error)
        decreases going, |bytes|
      {
        ghost var s, unread := Progress(complete, events), bytes;
        var r := NextEvent();
        DrainTurn(kind, s, unread);
        if r.Err? {
          error, going := Some(r.error), false;
        } else if r.value.None? {
          going := false;
        } else {
          events := events + [r.value.value];
        }
      }
    }
  }
}
