/**
 The four decoders of a file sent as DATA records and DONE: the incremental reader of `adb_proto`, the copy out of a
 session, the download of a dispatched device, and the reader of the server client.  They agree on what `data_frames`
 and `done` write; where they differ, exactly where is said.
 */
module SyncAgreement {
  import opened Bytes
  import opened Incremental
  import opened SyncReply
  import opened SyncStream
  import opened SyncRoundTrip
  import Copying = SyncCopy
  import Services

  /** The records for the given chunks. */
  function DataFrames(chunks: seq<seq<byte>>): seq<byte>
    requires forall c <- chunks :: |c| <= U32_MAX
  {
    if chunks == [] then [] else DataFrame(chunks[0]) + DataFrames(chunks[1..])
  }

  /** `slice::chunks` of 64 KiB. */
  function Chunks(bytes: seq<byte>): (r: seq<seq<byte>>)
    ensures Flatten(r) == bytes
    ensures forall c <- r :: 0 < |c| <= MAX_DATA_CHUNK
  {
    if bytes == [] then []
    else if |bytes| <= MAX_DATA_CHUNK then
      assert Flatten([bytes][1..]) == [];
      [bytes]
    else
      assert bytes == bytes[..MAX_DATA_CHUNK] + bytes[MAX_DATA_CHUNK..];
      [bytes[..MAX_DATA_CHUNK]] + Chunks(bytes[MAX_DATA_CHUNK..])
  }

  lemma DataFrameRead(chunk: seq<byte>, tail: seq<byte>)
    requires |chunk| <= U32_MAX
    ensures var s := DataFrame(chunk) + tail; var n := 8 + |chunk|;
            |s| >= n && s[..4] == DATA && Word(s, 4) == |chunk| && s[8..n] == chunk && s[n..] == tail
  {
    var s := DataFrame(chunk) + tail;
    assert s[4..8] == Le32(|chunk|);
    WordRead(s, 4, |chunk|);
  }

  lemma {:induction false} CopiedFrames(chunks: seq<seq<byte>>, mtime: u32, tail: seq<byte>)
    requires forall c <- chunks :: |c| <= U32_MAX
    ensures var s := DataFrames(chunks) + (DoneFrame(mtime) + tail);
            Copying.Copied(s) == Copying.Copy(Flatten(chunks), Copying.Finished) && Copying.Leftover(s) == tail
  {
    var end := DoneFrame(mtime) + tail;
    if chunks == [] {
      assert DataFrames(chunks) + end == end && end[..4] == DONE && end[8..] == tail;
    } else {
      var rest := DataFrames(chunks[1..]) + end;
      assert DataFrames(chunks) + end == DataFrame(chunks[0]) + rest;
      DataFrameRead(chunks[0], rest);
      CopiedFrames(chunks[1..], mtime, tail);
    }
  }

  lemma {:induction false} DownloadedFrames(chunks: seq<seq<byte>>, mtime: u32, tail: seq<byte>)
    requires forall c <- chunks :: |c| <= MAX_DATA_CHUNK
    ensures Services.Downloaded(DataFrames(chunks) + (DoneFrame(mtime) + tail)) ==
            Services.Download(Flatten(chunks), Services.Complete)
  {
    var end := DoneFrame(mtime) + tail;
    if chunks == [] {
      assert DataFrames(chunks) + end == end && end[..4] == DONE;
    } else {
      var rest := DataFrames(chunks[1..]) + end;
      assert DataFrames(chunks) + end == DataFrame(chunks[0]) + rest;
      DataFrameRead(chunks[0], rest);
      DownloadedFrames(chunks[1..], mtime, tail);
    }
  }

  /** The chunks before the first one without bytes. */
  function BeforeEmpty(chunks: seq<seq<byte>>): seq<seq<byte>> {
    if chunks == [] || chunks[0] == [] then [] else [chunks[0]] + BeforeEmpty(chunks[1..])
  }

  lemma {:induction false} PulledFrames(chunks: seq<seq<byte>>, mtime: u32, tail: seq<byte>)
    requires forall c <- chunks :: |c| <= U32_MAX
    ensures Copying.Pulled(0, DataFrames(chunks) + (DoneFrame(mtime) + tail)) ==
            Copying.Pull(Flatten(BeforeEmpty(chunks)), Copying.Ended)
  {
    var end := DoneFrame(mtime) + tail;
    if chunks == [] {
      assert DataFrames(chunks) + end == end && end[..4] == DONE;
    } else {
      var rest := DataFrames(chunks[1..]) + end;
      var s := DataFrame(chunks[0]) + rest;
      assert DataFrames(chunks) + end == s;
      DataFrameRead(chunks[0], rest);
      PulledFrames(chunks[1..], mtime, tail);
      if chunks[0] != [] {
        assert s[8..][..|chunks[0]|] == chunks[0] && s[8..][|chunks[0]|..] == rest;
        assert Copying.Pulled(0, s) == Copying.Pulled(|chunks[0]|, s[8..]);
        assert ([chunks[0]] + BeforeEmpty(chunks[1..]))[1..] == BeforeEmpty(chunks[1..]);
      }
    }
  }

  /** No chunk with bytes stands behind one without. */
  predicate EmptyLast(chunks: seq<seq<byte>>) {
    forall i, j | 0 <= i < j < |chunks| :: chunks[i] == [] ==> chunks[j] == []
  }

  lemma {:induction false} AllEmpty(chunks: seq<seq<byte>>)
    ensures Flatten(chunks) == [] <==> forall i | 0 <= i < |chunks| :: chunks[i] == []
  {
    if chunks != [] {
      AllEmpty(chunks[1..]);
      assert |Flatten(chunks)| == |chunks[0]| + |Flatten(chunks[1..])|;
      forall i | 0 <= i < |chunks[1..]| ensures chunks[1..][i] == chunks[i + 1] {
      }
      if Flatten(chunks) == [] {
        forall i | 0 <= i < |chunks| ensures chunks[i] == [] {
          assert i > 0 ==> chunks[1..][i - 1] == chunks[i];
        }
      } else if chunks[0] == [] {
        var i :| 0 <= i < |chunks[1..]| && chunks[1..][i] != [];
        assert chunks[i + 1] != [];
      }
    }
  }

  lemma {:induction false} BeforeEmptyIsAll(chunks: seq<seq<byte>>)
    ensures |Flatten(BeforeEmpty(chunks))| <= |Flatten(chunks)|
    ensures Flatten(BeforeEmpty(chunks)) == Flatten(chunks) <==> EmptyLast(chunks)
  {
    if chunks != [] && chunks[0] == [] {
      AllEmpty(chunks);
      if EmptyLast(chunks) {
        forall i | 0 <= i < |chunks| ensures chunks[i] == [] {
          assert i > 0 ==> chunks[0] == [];
        }
      }
    } else if chunks != [] {
      var some := [chunks[0]] + BeforeEmpty(chunks[1..]);
      BeforeEmptyIsAll(chunks[1..]);
      assert some[1..] == BeforeEmpty(chunks[1..]);
      assert Flatten(some) == chunks[0] + Flatten(BeforeEmpty(chunks[1..]));
      assert Flatten(some)[|chunks[0]|..] == Flatten(BeforeEmpty(chunks[1..]));
      assert Flatten(chunks)[|chunks[0]|..] == Flatten(chunks[1..]);
      EmptyLastTail(chunks);
    }
  }

  lemma EmptyLastTail(chunks: seq<seq<byte>>)
    requires chunks != [] && chunks[0] != []
    ensures EmptyLast(chunks) <==> EmptyLast(chunks[1..])
  {
    if EmptyLast(chunks[1..]) {
      forall i, j | 0 <= i < j < |chunks| ensures chunks[i] == [] ==> chunks[j] == [] {
        if i > 0 {
          assert chunks[1..][i - 1] == chunks[i] && chunks[1..][j - 1] == chunks[j];
        }
      }
    }
  }

  /**
   The server client's reader always reports a clean end, and gives the whole file if and only if no record with bytes
   stands behind a record without.
   */
  lemma RecvReaderExact(chunks: seq<seq<byte>>, mtime: u32, tail: seq<byte>)
    requires forall c <- chunks :: |c| <= U32_MAX
    ensures var pull := Copying.Pulled(0, DataFrames(chunks) + (DoneFrame(mtime) + tail));
            pull.end == Copying.Ended && (pull.output == Flatten(chunks) <==> EmptyLast(chunks))
  {
    PulledFrames(chunks, mtime, tail);
    BeforeEmptyIsAll(chunks);
  }

  // ---- Agreement ----

  function DataEvents(chunks: seq<seq<byte>>): (r: seq<SyncEvent>)
    ensures |r| == |chunks| && forall i | 0 <= i < |r| :: r[i] == Data(chunks[i])
  {
    if chunks == [] then [] else [Data(chunks[0])] + DataEvents(chunks[1..])
  }

  /** The bytes that the DATA events of a reader carry. */
  function FileBytes(events: seq<SyncEvent>): seq<byte> {
    if events == [] then []
    else if events[0].Data? then events[0].bytes + FileBytes(events[1..])
    else FileBytes(events[1..])
  }

  lemma {:induction false} FileBytesOfChunks(chunks: seq<seq<byte>>)
    ensures FileBytes(DataEvents(chunks) + [Done]) == Flatten(chunks)
  {
    var events := DataEvents(chunks) + [Done];
    if chunks == [] {
      assert events[1..] == [];
    } else {
      assert events[1..] == DataEvents(chunks[1..]) + [Done];
      FileBytesOfChunks(chunks[1..]);
    }
  }

  lemma ChunksExpressible(chunks: seq<seq<byte>>)
    requires forall c <- chunks :: |c| <= MAX_DATA_CHUNK
    ensures forall e <- DataEvents(chunks) + [Done] :: Expressible(RecvKind, e)
  {
    forall e <- DataEvents(chunks) + [Done] ensures Expressible(RecvKind, e) {
      var i :| 0 <= i <= |chunks| && (DataEvents(chunks) + [Done])[i] == e;
    }
  }

  lemma WrittenMore(e: SyncEvent, others: seq<SyncEvent>, pad: Padding)
    requires forall x <- [e] + others :: Expressible(RecvKind, x)
    requires e.Data? && |e.bytes| <= MAX_DATA_CHUNK
    ensures forall x <- others :: Expressible(RecvKind, x)
    ensures WrittenAll(RecvKind, [e] + others, pad) == DataFrame(e.bytes) + WrittenAll(RecvKind, others, pad)
  {
    assert ([e] + others)[1..] == others;
    assert forall x <- others :: x in [e] + others;
  }

  lemma {:induction false} WrittenChunks(chunks: seq<seq<byte>>, mtime: u32, pad: Padding)
    requires forall c <- chunks :: |c| <= MAX_DATA_CHUNK
    requires forall e <- DataEvents(chunks) + [Done] :: Expressible(RecvKind, e)
    requires pad[..4] == Le32(mtime)
    ensures WrittenAll(RecvKind, DataEvents(chunks) + [Done], pad) == DataFrames(chunks) + DoneFrame(mtime)
  {
    var events := DataEvents(chunks) + [Done];
    if chunks == [] {
      assert events == [Done];
      WrittenOne(RecvKind, Done, pad);
      assert Written(RecvKind, Done, pad) == DoneFrame(mtime);
    } else {
      var others := DataEvents(chunks[1..]) + [Done];
      assert events == [Data(chunks[0])] + others;
      WrittenMore(Data(chunks[0]), others, pad);
      WrittenChunks(chunks[1..], mtime, pad);
      Regrouped(DataFrame(chunks[0]), DataFrames(chunks[1..]), DoneFrame(mtime));
    }
  }

  /** A reply of which DONE carries the given time. */
  function Padded(mtime: u32): (pad: Padding)
    ensures pad[..4] == Le32(mtime)
  {
    Le32(mtime) + seq(72, _ => 0)
  }

  lemma FramesWritten(chunks: seq<seq<byte>>, mtime: u32, tail: seq<byte>)
    requires forall c <- chunks :: |c| <= MAX_DATA_CHUNK
    ensures forall e <- DataEvents(chunks) + [Done] :: Expressible(RecvKind, e)
    ensures WrittenAll(RecvKind, DataEvents(chunks) + [Done], Padded(mtime)) + tail ==
            DataFrames(chunks) + (DoneFrame(mtime) + tail)
  {
    ChunksExpressible(chunks);
    WrittenChunks(chunks, mtime, Padded(mtime));
    Regrouped(DataFrames(chunks), DoneFrame(mtime), tail);
  }

  lemma DataThenDone(chunks: seq<seq<byte>>)
    ensures EndsOnce(DataEvents(chunks) + [Done])
  {
  }

  lemma ReaderFrames(chunks: seq<seq<byte>>, mtime: u32, tail: seq<byte>, fragments: seq<seq<byte>>)
    requires forall c <- chunks :: |c| <= MAX_DATA_CHUNK
    requires Flatten(fragments) == DataFrames(chunks) + (DoneFrame(mtime) + tail)
    ensures Fragments(RecvKind, fragments) == (Progress(true, DataEvents(chunks) + [Done]), None)
  {
    FramesWritten(chunks, mtime, tail);
    DataThenDone(chunks);
    RepliesRoundTrip(RecvKind, DataEvents(chunks) + [Done], Padded(mtime), tail, fragments);
  }

  /**
   All four decoders give the same bytes for any records of 1 to 64 KiB and DONE, the incremental one in any fragments.
   The methods that run the other three are proved to give what these functions say under every packetisation, buffer
   size and short read.
   */
  lemma DecodersAgree(chunks: seq<seq<byte>>, mtime: u32, tail: seq<byte>, fragments: seq<seq<byte>>)
    requires forall c <- chunks :: 0 < |c| <= MAX_DATA_CHUNK
    requires Flatten(fragments) == DataFrames(chunks) + (DoneFrame(mtime) + tail)
    ensures var s := Flatten(fragments);
            && Fragments(RecvKind, fragments).1.None? && Fragments(RecvKind, fragments).0.complete
            && FileBytes(Fragments(RecvKind, fragments).0.events) == Flatten(chunks)
            && Copying.Copied(s) == Copying.Copy(Flatten(chunks), Copying.Finished)
            && Services.Downloaded(s) == Services.Download(Flatten(chunks), Services.Complete)
            && Copying.Pulled(0, s) == Copying.Pull(Flatten(chunks), Copying.Ended)
  {
    ReaderFrames(chunks, mtime, tail, fragments);
    FileBytesOfChunks(chunks);
    CopiedFrames(chunks, mtime, tail);
    DownloadedFrames(chunks, mtime, tail);
    PulledFrames(chunks, mtime, tail);
    BeforeEmptyIsAll(chunks);
  }

  /** A file cut up by `data_frames` and ended by `done` comes back whole from each of the four. */
  lemma FileRoundTrip(bytes: seq<byte>, mtime: u32, fragments: seq<seq<byte>>)
    requires Flatten(fragments) == DataFrames(Chunks(bytes)) + DoneFrame(mtime)
    ensures var s := Flatten(fragments);
            && FileBytes(Fragments(RecvKind, fragments).0.events) == bytes
            && Copying.Copied(s) == Copying.Copy(bytes, Copying.Finished)
            && Services.Downloaded(s) == Services.Download(bytes, Services.Complete)
            && Copying.Pulled(0, s) == Copying.Pull(bytes, Copying.Ended)
  {
    assert DoneFrame(mtime) + [] == DoneFrame(mtime);
    DecodersAgree(Chunks(bytes), mtime, [], fragments);
  }

  // ---- Streams that stop early ----

  /** The stream stops right behind the header of a DATA record, or behind the identifier of DONE. */
  predicate SilentCut(chunks: seq<seq<byte>>, n: nat) {
    if chunks == [] then n >= 4
    else n == 8 || (n >= 8 + |chunks[0]| && SilentCut(chunks[1..], n - 8 - |chunks[0]|))
  }

  /** What the first `n` bytes of a file look like, for a cut inside and a cut behind the first record. */
  lemma CutInFirst(chunk: seq<byte>, rest: seq<byte>, n: nat)
    requires 0 < |chunk| <= MAX_DATA_CHUNK && n < 8 + |chunk|
    ensures var s := (DataFrame(chunk) + rest)[..n];
            && Copying.Copied(s).end == Copying.Cut && Services.Downloaded(s).end == Services.Closed
            && (Copying.Pulled(0, s).end == Copying.Ended <==> n == 8)
  {
    var s := (DataFrame(chunk) + rest)[..n];
    DataFrameRead(chunk, rest);
    if n >= 8 {
      assert Word(s, 4) == |chunk| && s[..4] == DATA;
    } else if n >= 4 {
      assert s[..4] == DATA;
    }
  }

  lemma CutBehindFirst(chunk: seq<byte>, rest: seq<byte>, n: nat)
    requires 0 < |chunk| <= MAX_DATA_CHUNK && 8 + |chunk| <= n <= 8 + |chunk| + |rest|
    ensures var s := (DataFrame(chunk) + rest)[..n]; var next := rest[..n - 8 - |chunk|];
            && Copying.Copied(s).end == Copying.Copied(next).end
            && Services.Downloaded(s).end == Services.Downloaded(next).end
            && Copying.Pulled(0, s).end == Copying.Pulled(0, next).end
  {
    var s, next := (DataFrame(chunk) + rest)[..n], rest[..n - 8 - |chunk|];
    assert s == DataFrame(chunk) + next;
    DataFrameRead(chunk, next);
    assert s[8..][|chunk|..] == next;
    assert Copying.Pulled(0, s) == Copying.Pulled(|chunk|, s[8..]);
  }

  /**
   A file that stops early.  The session copy and the download always report it.  The server client's reader takes it
   for the whole file if and only if it stops right behind the header of a DATA record or behind the identifier of
   DONE.
   */
  lemma {:induction false} EarlyStops(chunks: seq<seq<byte>>, mtime: u32, n: nat)
    requires forall c <- chunks :: 0 < |c| <= MAX_DATA_CHUNK
    requires n < |DataFrames(chunks) + DoneFrame(mtime)|
    ensures var s := (DataFrames(chunks) + DoneFrame(mtime))[..n];
            && Copying.Copied(s).end == Copying.Cut && Services.Downloaded(s).end == Services.Closed
            && (Copying.Pulled(0, s).end == Copying.Ended <==> SilentCut(chunks, n))
  {
    var whole := DataFrames(chunks) + DoneFrame(mtime);
    if chunks == [] {
      var s := whole[..n];
      assert whole == DoneFrame(mtime);
      assert n >= 4 ==> s[..4] == DONE;
    } else {
      var rest := DataFrames(chunks[1..]) + DoneFrame(mtime);
      assert whole == DataFrame(chunks[0]) + rest;
      if n < 8 + |chunks[0]| {
        CutInFirst(chunks[0], rest, n);
      } else {
        CutBehindFirst(chunks[0], rest, n);
        EarlyStops(chunks[1..], mtime, n - 8 - |chunks[0]|);
      }
    }
  }
}
