/**
 The frames on the daemon's control socket (adb_cli/src/direct_daemon.rs:195-320): a status line, frames with a
 big-endian length, a frame without bytes, and a line that says how the operation ended.
 */
module DaemonFraming {
  import opened Bytes

  const MAX_CHUNK: nat := 0x1_0000
  const MAX_FRAME: nat := 0x10_0000

  const OK_LINE: seq<byte> := [0x4F, 0x4B, 0x0A]
  const ERR_PREFIX: seq<byte> := [0x45, 0x52, 0x52, 0x09]

  /** `u32::to_be_bytes`. */
  function Be32(x: u32): (r: seq<byte>)
    ensures |r| == 4
  {
    var le := Le32(x);
    [le[3], le[2], le[1], le[0]]
  }

  /** `u32::from_be_bytes` of the first four bytes. */
  function BigWord(b: seq<byte>): u32
    requires |b| >= 4
  {
    b[3] as int + 0x100 * b[2] as int + 0x1_0000 * b[1] as int + 0x100_0000 * b[0] as int
  }

  lemma BigWordRead(x: u32, tail: seq<byte>)
    ensures BigWord(Be32(x) + tail) == x
  {
    WordOfLe32(x);
    assert Le32(x) == [Le32(x)[0], Le32(x)[1], Le32(x)[2], Le32(x)[3]];
  }

  function FrameOf(chunk: seq<byte>): (r: seq<byte>)
    requires |chunk| <= U32_MAX
    ensures |r| == 4 + |chunk|
  {
    Be32(|chunk|) + chunk
  }

  function FramesOf(chunks: seq<seq<byte>>): seq<byte>
    requires forall c <- chunks :: |c| <= U32_MAX
  {
    if chunks == [] then [] else FrameOf(chunks[0]) + FramesOf(chunks[1..])
  }

  // ---- Decoding a whole stream ----

  datatype FrameEnd = Closed(rest: seq<byte>) | Truncated | Oversized

  datatype Unframed = Unframed(bytes: seq<byte>, end: FrameEnd)

  /** The bytes of the frames up to the one without bytes, and what follows that. */
  function Unframe(s: seq<byte>): Unframed
    decreases |s|
  {
    if |s| < 4 then Unframed([], Truncated)
    else
      var n := BigWord(s);
      if n == 0 then Unframed([], Closed(s[4..]))
      else if n > MAX_FRAME then Unframed([], Oversized)
      else if |s| < 4 + n then Unframed([], Truncated)
      else
        var next := Unframe(s[4 + n..]);
        next.(bytes := s[4..4 + n] + next.bytes)
  }

  // ---- The writer ----

  class Stream {
    var bytes: seq<byte>

    constructor (bytes: seq<byte>)
      ensures this.bytes == bytes
    {
      this.bytes := bytes;
    }

    method WriteAll(more: seq<byte>)
      modifies this
      ensures bytes == old(bytes) + more
    {
      bytes := bytes + more;
    }
  }

  /** How much of a write the next frame takes. */
  function FirstChunk(bytes: seq<byte>): (n: nat)
    ensures n <= |bytes| && n <= MAX_CHUNK && (bytes != [] ==> n > 0)
  {
    if |bytes| <= MAX_CHUNK then |bytes| else MAX_CHUNK
  }

  /** One write: frames of at most 64 KiB, and none at all when there is nothing to write. */
  function Framed(bytes: seq<byte>): seq<byte> {
    if bytes == [] then []
    else FrameOf(bytes[..FirstChunk(bytes)]) + Framed(bytes[FirstChunk(bytes)..])
  }

  function FramedAll(writes: seq<seq<byte>>): seq<byte> {
    if writes == [] then [] else Framed(writes[0]) + FramedAll(writes[1..])
  }

  /** `FramedWriter::write`. */
  method WriteFramed(stream: Stream, bytes: seq<byte>) returns (written: nat)
    modifies stream
    ensures written == |bytes|
    ensures stream.bytes == old(stream.bytes) + Framed(bytes)
  {
    ghost var all := stream.bytes + Framed(bytes);
    var left := bytes;
    while left != []
      invariant stream.bytes + Framed(left) == all
      decreases |left|
    {
      var n := FirstChunk(left);
      ghost var before, others := stream.bytes, Framed(left[n..]);
      assert before + (FrameOf(left[..n]) + others) == all;
      stream.WriteAll(Be32(n));
      stream.WriteAll(left[..n]);
      assert stream.bytes + others == before + (FrameOf(left[..n]) + others);
      left := left[n..];
    }
    return |bytes|;
  }

  /** The line an operation ends with. */
  function Trailer(error: Option<seq<byte>>): seq<byte> {
    if error.None? then OK_LINE else ERR_PREFIX + error.value + [0x0A]
  }

  /** What `stream_operation` puts on the stream. */
  function Emitted(writes: seq<seq<byte>>, error: Option<seq<byte>>): seq<byte> {
    OK_LINE + FramedAll(writes) + Be32(0) + Trailer(error)
  }

  lemma EmittedInParts(before: seq<byte>, writes: seq<seq<byte>>, error: Option<seq<byte>>)
    ensures before + OK_LINE + FramedAll(writes) + Be32(0) + Trailer(error) == before + Emitted(writes, error)
  {
    var frames := FramedAll(writes);
    Regrouped(before, OK_LINE, frames);
    Regrouped(before, OK_LINE + frames, Be32(0));
    Regrouped(before, OK_LINE + frames + Be32(0), Trailer(error));
  }

  /** `stream_operation`: an operation makes the given writes and ends with the given error or without. */
  method StreamOperation(stream: Stream, writes: seq<seq<byte>>, error: Option<seq<byte>>)
    modifies stream
    ensures stream.bytes == old(stream.bytes) + Emitted(writes, error)
  {
    stream.WriteAll(OK_LINE);
    ghost var all := stream.bytes + FramedAll(writes);
    var i := 0;
    while i < |writes|
      invariant i <= |writes|
      invariant stream.bytes + FramedAll(writes[i..]) == all
    {
      ghost var before := stream.bytes;
      assert writes[i..][0] == writes[i] && writes[i..][1..] == writes[i + 1..];
      var n := WriteFramed(stream, writes[i]);
      Regrouped(before, Framed(writes[i]), FramedAll(writes[i + 1..]));
      i := i + 1;
    }
    assert writes[i..] == [] && FramedAll(writes[i..]) == [];
    assert stream.bytes == all;
    stream.WriteAll(Be32(0));
    stream.WriteAll(Trailer(error));
    EmittedInParts(old(stream.bytes), writes, error);
  }

  // ---- The client ----

  datatype DecodeEnd = Succeeded | Failed(text: seq<byte>) | BadStatus | BadFrames(end: FrameEnd)

  datatype Decoded = Decoded(output: seq<byte>, end: DecodeEnd)

  /** The decoder of the whole stream. */
  function Decode(s: seq<byte>): Decoded {
    if !(OK_LINE <= s) then Decoded([], BadStatus)
    else
      var frames := Unframe(s[3..]);
      if !frames.end.Closed? then Decoded(frames.bytes, BadFrames(frames.end))
      else Decoded(frames.bytes, if frames.end.rest == OK_LINE then Succeeded else Failed(frames.end.rest))
  }

  /** The index behind the first line feed, or the end of the stream. */
  method LineEnd(s: seq<byte>) returns (n: nat)
    ensures n <= |s|
    ensures forall i | 0 <= i < n - 1 :: s[i] != 0x0A
    ensures n < |s| ==> n > 0 && s[n - 1] == 0x0A
  {
    n := 0;
    while n < |s|
      invariant n <= |s|
      invariant forall i | 0 <= i < n :: s[i] != 0x0A
    {
      n := n + 1;
      if s[n - 1] == 0x0A {
        return;
      }
    }
  }

  /** `read_line` gives the line `OK` exactly when the stream starts with it. */
  lemma StatusLine(s: seq<byte>, n: nat)
    requires n <= |s| && (forall i | 0 <= i < n - 1 :: s[i] != 0x0A) && (n < |s| ==> n > 0 && s[n - 1] == 0x0A)
    ensures s[..n] == OK_LINE <==> OK_LINE <= s
  {
    if OK_LINE <= s {
      assert s[..3] == OK_LINE;
      assert s[0] == 0x4F && s[1] == 0x4B && s[2] == 0x0A;
    }
  }

  lemma UnframeStep(s: seq<byte>)
    requires |s| >= 4 && 0 < BigWord(s) <= MAX_FRAME && 4 + BigWord(s) <= |s|
    ensures var next := Unframe(s[4 + BigWord(s)..]);
            Unframe(s) == Unframed(s[4..4 + BigWord(s)] + next.bytes, next.end)
  {
  }

  /** The loop of `decode_stream`. */
  method ReadFrames(s: seq<byte>) returns (output: seq<byte>, end: FrameEnd)
    ensures Unframed(output, end) == Unframe(s)
  {
    output := [];
    var left := s;
    while true
      invariant Unframe(s) == Unframed(output + Unframe(left).bytes, Unframe(left).end)
      decreases |left|
    {
      if |left| < 4 {
        return output, Truncated;
      }
      var length := BigWord(left);
      if length == 0 {
        return output, Closed(left[4..]);
      }
      if length > MAX_FRAME {
        return output, Oversized;
      }
      if |left| < 4 + length {
        return output, Truncated;
      }
      UnframeStep(left);
      var data := left[4..4 + length];
      left := left[4 + length..];
      Regrouped(output, data, Unframe(left).bytes);
      output := output + data;
    }
  }

  /** `decode_stream` writes and ends as the decoder of the whole stream does. */
  method DecodeStream(s: seq<byte>) returns (output: seq<byte>, end: DecodeEnd)
    ensures Decoded(output, end) == Decode(s)
  {
    var at := LineEnd(s);
    StatusLine(s, at);
    if s[..at] != OK_LINE {
      return [], BadStatus;
    }
    var framesEnd;
    assert at == |s[..at]| == 3;
    output, framesEnd := ReadFrames(s[at..]);
    if !framesEnd.Closed? {
      return output, BadFrames(framesEnd);
    }
    return output, if framesEnd.rest == OK_LINE then Succeeded else Failed(framesEnd.rest);
  }

  /** One frame in front. */
  lemma UnframeOne(chunk: seq<byte>, rest: seq<byte>)
    requires 0 < |chunk| <= MAX_FRAME
    ensures Unframe(FrameOf(chunk) + rest) == Unframed(chunk + Unframe(rest).bytes, Unframe(rest).end)
  {
    var s, n := FrameOf(chunk) + rest, |chunk|;
    assert s == Be32(n) + (chunk + rest);
    BigWordRead(n, chunk + rest);
    assert s[4..4 + n] == chunk && s[4 + n..] == rest;
  }

  lemma FramedStep(bytes: seq<byte>, rest: seq<byte>)
    requires bytes != []
    ensures var n := FirstChunk(bytes);
            && Framed(bytes) + rest == FrameOf(bytes[..n]) + (Framed(bytes[n..]) + rest)
            && bytes[..n] + bytes[n..] == bytes
  {
    var n := FirstChunk(bytes);
    Regrouped(FrameOf(bytes[..n]), Framed(bytes[n..]), rest);
  }

  lemma UnframeMore(chunk: seq<byte>, left: seq<byte>, others: seq<byte>, u: Unframed)
    requires 0 < |chunk| <= MAX_FRAME && Unframe(others) == Unframed(left + u.bytes, u.end)
    ensures Unframe(FrameOf(chunk) + others) == Unframed(chunk + left + u.bytes, u.end)
  {
    UnframeOne(chunk, others);
    assert chunk + (left + u.bytes) == chunk + left + u.bytes;
  }

  lemma {:induction false} UnframeWrite(bytes: seq<byte>, rest: seq<byte>, u: Unframed)
    requires u == Unframe(rest)
    ensures Unframe(Framed(bytes) + rest) == Unframed(bytes + u.bytes, u.end)
    decreases |bytes|
  {
    if bytes == [] {
      assert Framed(bytes) + rest == rest && bytes + u.bytes == u.bytes;
    } else {
      var first, left := bytes[..FirstChunk(bytes)], bytes[FirstChunk(bytes)..];
      FramedStep(bytes, rest);
      UnframeWrite(left, rest, u);
      UnframeMore(first, left, Framed(left) + rest, u);
    }
  }

  lemma {:induction false} UnframeWrites(writes: seq<seq<byte>>, rest: seq<byte>)
    ensures Unframe(FramedAll(writes) + rest) == Unframed(Flatten(writes) + Unframe(rest).bytes, Unframe(rest).end)
  {
    if writes == [] {
      assert FramedAll(writes) + rest == rest;
    } else {
      var others := FramedAll(writes[1..]) + rest;
      assert FramedAll(writes) + rest == Framed(writes[0]) + others;
      UnframeWrites(writes[1..], rest);
      UnframeWrite(writes[0], others, Unframe(others));
      assert writes[0] + (Flatten(writes[1..]) + Unframe(rest).bytes) == Flatten(writes) + Unframe(rest).bytes;
    }
  }

  lemma UnframeEnd(tail: seq<byte>)
    ensures Unframe(Be32(0) + tail) == Unframed([], Closed(tail))
  {
    BigWordRead(0, tail);
    assert (Be32(0) + tail)[4..] == tail;
  }

  /**
   For any writes, empty ones included, the client outputs exactly the bytes written, and it succeeds if and only if the
   operation did; otherwise it is given the operation's error, on a line that starts with ERR and a tab.
   */
  lemma StreamRoundTrip(writes: seq<seq<byte>>, error: Option<seq<byte>>)
    ensures Decode(Emitted(writes, error)) ==
            Decoded(Flatten(writes), if error.None? then Succeeded
                                     else Failed([0x45, 0x52, 0x52, 0x09] + error.value + [0x0A]))
    ensures Decode(Emitted(writes, error)).end.Succeeded? <==> error.None?
  {
    var rest := Be32(0) + Trailer(error);
    EmittedBehindStatus(writes, error);
    UnframeWrites(writes, rest);
    UnframeEnd(Trailer(error));
    DecodeBehindStatus(FramedAll(writes) + rest);
    assert Flatten(writes) + [] == Flatten(writes);
    TrailerTells(error);
  }

  /**
   What output that goes wrong comes to: behind whole frames, which are delivered, a length above 1 MiB is oversized,
   and a frame or a length cut short is truncated.
   */
  lemma {:induction false} FramesFault(chunks: seq<seq<byte>>, length: u32, body: seq<byte>, part: seq<byte>)
    requires (forall c <- chunks :: 0 < |c| <= MAX_FRAME) && |part| < 4
    ensures length > 0x10_0000 ==>
            Unframe(FramesOf(chunks) + (Be32(length) + body)) == Unframed(Flatten(chunks), Oversized)
    ensures |body| < length <= 0x10_0000 ==>
            Unframe(FramesOf(chunks) + (Be32(length) + body)) == Unframed(Flatten(chunks), Truncated)
    ensures Unframe(FramesOf(chunks) + part) == Unframed(Flatten(chunks), Truncated)
  {
    UnframeBehind(chunks, Be32(length) + body);
    UnframeBehind(chunks, part);
    BigWordRead(length, body);
    assert Flatten(chunks) + [] == Flatten(chunks);
  }

  lemma {:induction false} UnframeBehind(chunks: seq<seq<byte>>, rest: seq<byte>)
    requires forall c <- chunks :: 0 < |c| <= MAX_FRAME
    ensures Unframe(FramesOf(chunks) + rest) == Unframed(Flatten(chunks) + Unframe(rest).bytes, Unframe(rest).end)
  {
    if chunks == [] {
      assert FramesOf(chunks) + rest == rest;
    } else {
      var others := FramesOf(chunks[1..]) + rest;
      Regrouped(FrameOf(chunks[0]), FramesOf(chunks[1..]), rest);
      UnframeOne(chunks[0], others);
      UnframeBehind(chunks[1..], rest);
      Regrouped(chunks[0], Flatten(chunks[1..]), Unframe(rest).bytes);
    }
  }

  lemma DecodeBehindStatus(s: seq<byte>)
    requires Unframe(s).end.Closed?
    ensures Decode(OK_LINE + s) ==
            Decoded(Unframe(s).bytes, if Unframe(s).end.rest == OK_LINE then Succeeded else Failed(Unframe(s).end.rest))
  {
    assert OK_LINE <= OK_LINE + s && (OK_LINE + s)[3..] == s;
  }

  lemma EmittedBehindStatus(writes: seq<seq<byte>>, error: Option<seq<byte>>)
    ensures Emitted(writes, error) == OK_LINE + (FramedAll(writes) + (Be32(0) + Trailer(error)))
  {
  }

  lemma TrailerTells(error: Option<seq<byte>>)
    ensures Trailer(error) == OK_LINE <==> error.None?
  {
    if error.Some? {
      assert Trailer(error)[0] == 0x45;
    }
  }

  // ---- The reader of uploads ----

  /** Frames of any sizes that a client may send are undone: an upload is what its frames hold. */
  lemma {:induction false} UploadRoundTrip(chunks: seq<seq<byte>>, tail: seq<byte>)
    requires forall c <- chunks :: 0 < |c| <= MAX_FRAME
    ensures Unframe(FramesOf(chunks) + (Be32(0) + tail)) == Unframed(Flatten(chunks), Closed(tail))
  {
    var end := Be32(0) + tail;
    if chunks == [] {
      UnframeEnd(tail);
      assert FramesOf(chunks) + end == end;
    } else {
      assert FramesOf(chunks) + end == FrameOf(chunks[0]) + (FramesOf(chunks[1..]) + end);
      UnframeOne(chunks[0], FramesOf(chunks[1..]) + end);
      UploadRoundTrip(chunks[1..], tail);
    }
  }

  class FramedReader {
    var stream: seq<byte>
    var frame: seq<byte>
    var offset: nat
    var finished: bool

    ghost predicate Valid()
      reads this
    {
      offset <= |frame| && (finished ==> offset == |frame|)
    }

    /** The bytes that reading on can give, and how the frames end. */
    ghost function Pending(): seq<byte>
      requires Valid()
      reads this
    {
      if finished then [] else frame[offset..] + Unframe(stream).bytes
    }

    ghost function End(): FrameEnd
      reads this
    {
      if finished then Closed(stream) else Unframe(stream).end
    }

    constructor (stream: seq<byte>)
      ensures Valid() && Pending() == Unframe(stream).bytes && End() == Unframe(stream).end
    {
      this.stream, frame, offset, finished := stream, [], 0, false;
    }

    /** The next frame, or the end. */
    method NextFrame() returns (ok: bool)
      requires Valid() && offset == |frame| && !finished
      modifies this
      ensures ok <==> Unframe(old(stream)).end.Closed? || Unframe(old(stream)).bytes != []
      ensures ok ==> Valid() && Pending() == old(Pending()) && End() == old(End()) && (finished || offset < |frame|)
    {
      ghost var s := stream;
      if |stream| < 4 {
        return false;
      }
      var length := BigWord(stream);
      stream := stream[4..];
      if length == 0 {
        finished := true;
        return true;
      }
      if length > MAX_FRAME || |stream| < length {
        return false;
      }
      frame, stream, offset := stream[..length], stream[length..], 0;
      assert frame == s[4..4 + length] && stream == s[4 + length..];
      return true;
    }

    /**
     Gives at least one byte while there is one, then nothing for ever once the frames have ended, and fails when they
     are cut short or too large.
     */
    method Read(capacity: nat) returns (r: Option<seq<byte>>)
      requires Valid()
      modifies this
      ensures r.Some? ==> Valid() && |r.value| <= capacity
      ensures r.Some? ==> old(Pending()) == r.value + Pending() && old(End()) == End()
      ensures r == Some([]) && capacity > 0 ==> finished && old(Pending()) == [] && old(End()) == Closed(stream)
      ensures capacity > 0 ==> (r.None? <==> old(Pending()) == [] && !old(End()).Closed?)
      ensures old(finished) ==> r == Some([]) && finished && stream == old(stream)
    {
      if capacity == 0 {
        return Some([]);
      }
      if offset == |frame| && !finished {
        var ok := NextFrame();
        if !ok {
          return None;
        }
      }
      if finished {
        return Some([]);
      }
      var taken := TakeFromFrame(capacity);
      return Some(taken);
    }

    method TakeFromFrame(capacity: nat) returns (r: seq<byte>)
      requires Valid() && !finished && offset < |frame| && capacity > 0
      modifies `offset
      ensures Valid() && 0 < |r| <= capacity && old(Pending()) == r + Pending()
    {
      var count := if capacity < |frame| - offset then capacity else |frame| - offset;
      r := frame[offset..offset + count];
      ghost var others := Unframe(stream).bytes;
      assert frame[offset..] + others == r + (frame[offset + count..] + others);
      offset := offset + count;
    }
  }

  /** `read_to_end` with buffers of any size: every byte of the frames, once, in order. */
  method ReadToEnd(reader: FramedReader) returns (bytes: seq<byte>, ok: bool)
    requires reader.Valid()
    modifies reader
    ensures ok <==> old(reader.End()).Closed?
    ensures bytes == old(reader.Pending())
    ensures ok ==> reader.Valid() && reader.finished
  {
    bytes := [];
    ghost var all := reader.Pending();
    while true
      invariant reader.Valid()
      invariant all == bytes + reader.Pending() && reader.End() == old(reader.End())
      decreases |reader.Pending()|
    {
      var buffer: nat :| buffer > 0;
      var got := reader.Read(buffer);
      if got.None? {
        return bytes, false;
      }
      if got.value == [] {
        return bytes, true;
      }
      Regrouped(bytes, got.value, reader.Pending());
      bytes := bytes + got.value;
    }
  }
}
