/**
 Whole replies of the `sync:` service: however they are cut into fragments the reader gives the same events, a reply is
 entries and then at most one terminal event, and every reply that a device writes is read back as it was meant.
 */
module SyncStream {
  import opened Bytes
  import opened Incremental
  import opened SyncReply

  // ---- Fragments ----

  /** Feed fragments one by one, taking every event each completes, until the first error. */
  ghost function Fragments(kind: Kind, chunks: seq<seq<byte>>): (Progress, Option<SyncError>) {
    ReadingIsPrompt(kind);
    FeedUntil(Reading(kind), (s: Progress) => s.complete, FRESH, [], chunks)
  }

  lemma CompleteIsFinal(kind: Kind, s: Progress, unread: seq<byte>)
    requires Prompt(Reading(kind)) && s.complete
    ensures Drain(Reading(kind), s, unread) == Outcome(s, unread, None)
  {
  }

  /** The events, the completion and the first error depend on the concatenated input only. */
  lemma FragmentsInvisible(kind: Kind, chunks: seq<seq<byte>>)
    ensures Prompt(Reading(kind))
    ensures var o := Drain(Reading(kind), FRESH, Flatten(chunks));
            Fragments(kind, chunks) == (o.state, o.error)
  {
    ReadingIsPrompt(kind);
    var done := (s: Progress) => s.complete;
    assert Ends(Reading(kind), done);
    DroppingInvisible(Reading(kind), done, FRESH, [], chunks);
    assert [] + Flatten(chunks) == Flatten(chunks);
  }

  // ---- The shape of a reply ----

  predicate WellShaped(s: Progress) {
    && (forall i | 0 <= i < |s.events| - 1 :: !Terminal(s.events[i]))
    && (s.complete <==> s.events != [] && Terminal(s.events[|s.events| - 1]))
  }

  /** Which entries a kind of reply may hold, and what may end it. */
  predicate Belongs(kind: Kind, e: SyncEvent) {
    match e
    case Stat(_, _, _, _) => kind.StatKind? || kind.Stat2Kind?
    case Dent(_, _, _, _, name) => (kind.ListKind? || kind.List2Kind?) && |name| <= MAX_NAME
    case Data(bytes) => kind.RecvKind? && |bytes| <= MAX_DATA_CHUNK
    case Done => kind.ListKind? || kind.List2Kind? || kind.RecvKind?
    case Fail(text) => |text| <= MAX_MESSAGE
  }

  lemma RepliesBelong(kind: Kind, b: seq<byte>)
    ensures ReplyOf(kind, b).Got? ==> Belongs(kind, ReplyOf(kind, b).event)
  {
  }

  lemma {:induction false} DrainIsWellShaped(kind: Kind, s: Progress, unread: seq<byte>)
    requires Prompt(Reading(kind))
    requires WellShaped(s) && forall e <- s.events :: Belongs(kind, e)
    ensures var o := Drain(Reading(kind), s, unread);
            WellShaped(o.state) && s.events <= o.state.events && forall e <- o.state.events :: Belongs(kind, e)
    decreases |unread|
  {
    assert FinalAt(Reading(kind), s, unread, []);
    var r := Reading(kind)(s, unread);
    if r.Took? {
      RepliesBelong(kind, unread);
      DrainIsWellShaped(kind, r.next, unread[r.used..]);
    }
  }

  /** Entries of the right kind, then at most one terminal event, and nothing after it whatever is pushed. */
  lemma EntriesThenOneEnd(kind: Kind, chunks: seq<seq<byte>>, more: seq<seq<byte>>)
    ensures Prompt(Reading(kind))
    ensures var (s, error) := Fragments(kind, chunks);
            && WellShaped(s) && (forall e <- s.events :: Belongs(kind, e))
            && (s.complete ==> error.None? && Fragments(kind, chunks + more) == (s, None))
  {
    ReadingIsPrompt(kind);
    FragmentsInvisible(kind, chunks);
    FragmentsInvisible(kind, chunks + more);
    DrainIsWellShaped(kind, FRESH, Flatten(chunks));
    FlattenAppend(chunks, more);
    DrainAppend(Reading(kind), FRESH, Flatten(chunks), Flatten(more));
    var o := Drain(Reading(kind), FRESH, Flatten(chunks));
    if o.state.complete {
      CompleteHasNoError(kind, FRESH, Flatten(chunks));
      CompleteIsFinal(kind, o.state, o.rest + Flatten(more));
    }
  }

  lemma {:induction false} CompleteHasNoError(kind: Kind, s: Progress, unread: seq<byte>)
    requires Prompt(Reading(kind))
    ensures var o := Drain(Reading(kind), s, unread); o.state.complete ==> o.error.None?
    decreases |unread|
  {
    assert FinalAt(Reading(kind), s, unread, []);
    var r := Reading(kind)(s, unread);
    if r.Took? {
      CompleteHasNoError(kind, r.next, unread[r.used..]);
    }
  }
}
