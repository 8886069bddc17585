/**
 A file that a device gives up on: DATA records and then FAIL with a text (adb_proto/src/sync.rs:170-215;
 adb_client/src/message_devices/adb_session.rs:63-108; adb_client/src/message_devices/dispatched_device.rs:415-448;
 adb_client/src/server_device/commands/recv.rs:24-67).  The decoders of `SyncAgreement` deliver what came before it and
 report the text, each up to its own limit.
 */
module SyncFailures {
  import opened Bytes
  import opened Incremental
  import opened SyncReply
  import opened SyncStream
  import opened SyncRoundTrip
  import opened SyncAgreement
  import Copying = SyncCopy
  import Services

  function FailFrame(text: seq<byte>): (r: seq<byte>)
    requires |text| <= U32_MAX
    ensures |r| == 8 + |text|
  {
    Frame(FAIL, |text|, text)
  }

  lemma FailFrameRead(text: seq<byte>, tail: seq<byte>)
    requires |text| <= U32_MAX
    ensures var s := FailFrame(text) + tail; var n := 8 + |text|;
            |s| >= n && s[..4] == FAIL && Word(s, 4) == |text| && s[8..n] == text
  {
    var s := FailFrame(text) + tail;
    assert s[4..8] == Le32(|text|);
    WordRead(s, 4, |text|);
  }

  /** Behind whole records each decoder has delivered them, and goes on. */
  lemma {:induction false} CopiedBehind(chunks: seq<seq<byte>>, rest: seq<byte>)
    requires forall c <- chunks :: |c| <= U32_MAX
    ensures Copying.Copied(DataFrames(chunks) + rest) ==
            Copying.Copy(Flatten(chunks) + Copying.Copied(rest).output, Copying.Copied(rest).end)
  {
    if chunks == [] {
      assert DataFrames(chunks) + rest == rest;
    } else {
      var others := DataFrames(chunks[1..]) + rest;
      Regrouped(DataFrame(chunks[0]), DataFrames(chunks[1..]), rest);
      DataFrameRead(chunks[0], others);
      CopiedBehind(chunks[1..], rest);
      Regrouped(chunks[0], Flatten(chunks[1..]), Copying.Copied(rest).output);
    }
  }

  lemma {:induction false} DownloadedBehind(chunks: seq<seq<byte>>, rest: seq<byte>)
    requires forall c <- chunks :: |c| <= MAX_DATA_CHUNK
    ensures Services.Downloaded(DataFrames(chunks) + rest) ==
            Services.Download(Flatten(chunks) + Services.Downloaded(rest).output, Services.Downloaded(rest).end)
  {
    if chunks == [] {
      assert DataFrames(chunks) + rest == rest;
    } else {
      var others := DataFrames(chunks[1..]) + rest;
      Regrouped(DataFrame(chunks[0]), DataFrames(chunks[1..]), rest);
      DataFrameRead(chunks[0], others);
      DownloadedBehind(chunks[1..], rest);
      Regrouped(chunks[0], Flatten(chunks[1..]), Services.Downloaded(rest).output);
    }
  }

  lemma PulledOne(chunk: seq<byte>, rest: seq<byte>)
    requires 0 < |chunk| <= U32_MAX
    ensures Copying.Pulled(0, DataFrame(chunk) + rest) ==
            Copying.Pull(chunk + Copying.Pulled(0, rest).output, Copying.Pulled(0, rest).end)
  {
    var s := DataFrame(chunk) + rest;
    DataFrameRead(chunk, rest);
    assert s[8..][..|chunk|] == chunk && s[8..][|chunk|..] == rest;
    assert Copying.Pulled(0, s) == Copying.Pulled(|chunk|, s[8..]);
  }

  lemma {:induction false} PulledBehind(chunks: seq<seq<byte>>, rest: seq<byte>)
    requires forall c <- chunks :: 0 < |c| <= U32_MAX
    ensures Copying.Pulled(0, DataFrames(chunks) + rest) ==
            Copying.Pull(Flatten(chunks) + Copying.Pulled(0, rest).output, Copying.Pulled(0, rest).end)
  {
    if chunks == [] {
      assert DataFrames(chunks) + rest == rest;
    } else {
      Regrouped(DataFrame(chunks[0]), DataFrames(chunks[1..]), rest);
      PulledOne(chunks[0], DataFrames(chunks[1..]) + rest);
      PulledBehind(chunks[1..], rest);
      Regrouped(chunks[0], Flatten(chunks[1..]), Copying.Pulled(0, rest).output);
    }
  }

  lemma FailRead(text: seq<byte>, tail: seq<byte>)
    requires |text| <= U32_MAX
    ensures var s := FailFrame(text) + tail;
            && Copying.Copied(s) ==
                 Copying.Copy([], if |text| <= 0x10_0000 then Copying.CopyEnd.Refused(text) else Copying.MessageTooBig)
            && Services.Downloaded(s) ==
                 Services.Download([], if |text| <= 0x1_0000 then Services.PullEnd.Refused(text)
                                       else Services.InvalidPacket)
            && Copying.Pulled(0, s) == Copying.Pull([], Copying.Declined(text))
  {
    FailFrameRead(text, tail);
  }

  /**
   For any records of 1 to 64 KiB and FAIL: the three decoders of whole streams deliver the records and report the text,
   the session copy up to 1 MiB of it, the download up to 64 KiB, and the server client's reader any text.
   */
  lemma FailuresAreReported(chunks: seq<seq<byte>>, text: seq<byte>, tail: seq<byte>)
    requires (forall c <- chunks :: 0 < |c| <= MAX_DATA_CHUNK) && |text| <= U32_MAX
    ensures var s := DataFrames(chunks) + (FailFrame(text) + tail);
            && Copying.Copied(s) ==
                 Copying.Copy(Flatten(chunks),
                              if |text| <= 0x10_0000 then Copying.CopyEnd.Refused(text) else Copying.MessageTooBig)
            && Services.Downloaded(s) ==
                 Services.Download(Flatten(chunks),
                                   if |text| <= 0x1_0000 then Services.PullEnd.Refused(text)
                                   else Services.InvalidPacket)
            && Copying.Pulled(0, s) == Copying.Pull(Flatten(chunks), Copying.Declined(text))
  {
    var rest := FailFrame(text) + tail;
    FailRead(text, tail);
    CopiedBehind(chunks, rest);
    DownloadedBehind(chunks, rest);
    PulledBehind(chunks, rest);
    assert Flatten(chunks) + [] == Flatten(chunks);
  }

  lemma StrangeRead(rest: seq<byte>)
    requires |rest| >= 8 && rest[..4] != DATA && rest[..4] != DONE && rest[..4] != FAIL
    ensures Copying.Copied(rest) == Copying.Copy([], Copying.Unknown)
    ensures Services.Downloaded(rest) == Services.Download([], Services.InvalidPacket)
    ensures Copying.Pulled(0, rest) == Copying.Pull([], Copying.Strange)
  {
  }

  /** Behind any records of 1 to 64 KiB another record ends it: they are delivered, and it is not taken for an end. */
  lemma StrangersEndIt(chunks: seq<seq<byte>>, rest: seq<byte>)
    requires forall c <- chunks :: 0 < |c| <= MAX_DATA_CHUNK
    requires |rest| >= 8 && rest[..4] != DATA && rest[..4] != DONE && rest[..4] != FAIL
    ensures var s := DataFrames(chunks) + rest;
            && Copying.Copied(s) == Copying.Copy(Flatten(chunks), Copying.Unknown)
            && Services.Downloaded(s) == Services.Download(Flatten(chunks), Services.InvalidPacket)
            && Copying.Pulled(0, s) == Copying.Pull(Flatten(chunks), Copying.Strange)
  {
    StrangeRead(rest);
    CopiedBehind(chunks, rest);
    DownloadedBehind(chunks, rest);
    PulledBehind(chunks, rest);
    assert Flatten(chunks) + [] == Flatten(chunks);
  }

  lemma CutRead(chunk: seq<byte>, n: nat)
    requires n < |chunk| <= MAX_DATA_CHUNK
    ensures var s := DATA + Le32(|chunk|) + chunk[..n];
            && Copying.Copied(s) == Copying.Copy(chunk[..n], Copying.Cut)
            && Services.Downloaded(s) == Services.Download([], Services.Closed)
            && (n > 0 ==> Copying.Pulled(0, s) == Copying.Pull(chunk[..n], Copying.Truncated))
  {
    var s := DATA + Le32(|chunk|) + chunk[..n];
    assert s[4..8] == Le32(|chunk|) && s[..4] == DATA && s[8..] == chunk[..n];
    WordRead(s, 4, |chunk|);
  }

  /**
   What is delivered of a record cut short, behind whole ones: by the session copy, what there is of it; by the
   download, nothing; by the server client's reader, at most what there is.
   */
  lemma CutsAreDelivered(chunks: seq<seq<byte>>, chunk: seq<byte>, n: nat)
    requires (forall c <- chunks :: 0 < |c| <= MAX_DATA_CHUNK) && n < |chunk| <= MAX_DATA_CHUNK
    ensures var s := DataFrames(chunks) + (DATA + Le32(|chunk|) + chunk[..n]);
            && Copying.Copied(s) == Copying.Copy(Flatten(chunks) + chunk[..n], Copying.Cut)
            && Services.Downloaded(s) == Services.Download(Flatten(chunks), Services.Closed)
            && (n > 0 ==> Copying.Pulled(0, s) == Copying.Pull(Flatten(chunks) + chunk[..n], Copying.Truncated))
  {
    var rest := DATA + Le32(|chunk|) + chunk[..n];
    CutRead(chunk, n);
    CopiedBehind(chunks, rest);
    DownloadedBehind(chunks, rest);
    PulledBehind(chunks, rest);
    assert Flatten(chunks) + [] == Flatten(chunks);
  }

  // ---- The limits of the incremental reader ----

  /** A record whose length is the last word of what stands before its body. */
  lemma RecordLimit(fixed: seq<byte>, length: u32, body: seq<byte>, limit: nat)
    ensures var b := fixed + Le32(length) + body;
            RecordAt(b, |fixed| + 4, limit) ==
              if length > limit then TooLong else if |body| < length then Partial else Whole(|fixed| + 4 + length)
  {
    var b := fixed + Le32(length) + body;
    assert b[|fixed|..|fixed| + 4] == Le32(length);
    WordRead(b, |fixed|, length);
  }

  /** The reader rejects data above 64 KiB and a text above 4096 bytes, and waits for what is shorter. */
  lemma BodiesAreLimited(kind: Kind, length: u32, body: seq<byte>)
    ensures var data := ReplyOf(RecvKind, DATA + Le32(length) + body);
            && (length > 0x1_0000 <==> data == Bad(DataTooLong))
            && (length <= 0x1_0000 && |body| < length <==> data == Short)
    ensures var fail := ReplyOf(kind, FAIL + Le32(length) + body);
            && (length > 4096 <==> fail == Bad(MessageTooLong))
            && (length <= 4096 && |body| < length <==> fail == Short)
  {
    RecordLimit(DATA, length, body, MAX_DATA_CHUNK);
    RecordLimit(FAIL, length, body, MAX_MESSAGE);
    assert (DATA + Le32(length) + body)[..4] == DATA && (FAIL + Le32(length) + body)[..4] == FAIL;
  }

  /** It rejects a name above 1024 bytes, in a listing of either version. */
  lemma NamesAreLimited(fixed: seq<byte>, length: u32, body: seq<byte>)
    requires (|fixed| == 16 && fixed[..4] == DENT) || (|fixed| == 72 && fixed[..4] == DNT2)
    ensures var r := ReplyOf(if |fixed| == 16 then ListKind else List2Kind, fixed + Le32(length) + body);
            && (length > 1024 <==> r == Bad(NameTooLong))
            && (length <= 1024 && |body| < length <==> r == Short)
  {
    RecordLimit(fixed, length, body, MAX_NAME);
    assert (fixed + Le32(length) + body)[..4] == fixed[..4];
  }

  /** It rejects a record that has no place in a reply of its kind. */
  lemma StrangersAreRejected(kind: Kind, b: seq<byte>)
    requires |b| >= 4
    ensures ReplyOf(kind, b) == Bad(Unexpected(b[..4])) <==>
            && b[..4] != FAIL
            && b[..4] != (match kind case StatKind => STAT case Stat2Kind => STA2 case ListKind => DENT
                                     case List2Kind => DNT2 case RecvKind => DATA)
            && (b[..4] == DONE ==> kind.StatKind? || kind.Stat2Kind?)
  {
  }
}
