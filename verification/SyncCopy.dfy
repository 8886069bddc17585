/**
 The two other decoders of the reply to RECV.  `CopySyncFile` reads a queue of WRTE payloads
 (adb_client/src/message_devices/adb_session.rs:16-108); `RecvCommandReader` reads a socket that may return less than
 was asked for (adb_client/src/server_device/commands/recv.rs:10-67).  Each is proved against a decoder of the whole
 stream.
 */
module SyncCopy {
  import opened Bytes
  import opened SyncReply

  const MAX_SYNC_ERROR: nat := 0x10_0000

  // ---- copy_sync_file ----

  /**
   What `recv_and_reply_okay` meets: a WRTE or another command, acknowledged either way, a read that fails, after which
   nothing is sent, or a message whose OKAY could not be sent.
   */
  datatype Arrival = Payload(bytes: seq<byte>) | Other | ReadFailed | OkayFailed

  /** The bytes that can be read before a failure, a command other than WRTE, or an empty payload. */
  function Readable(queue: seq<Arrival>): seq<byte> {
    if queue == [] || !queue[0].Payload? || queue[0].bytes == [] then [] else queue[0].bytes + Readable(queue[1..])
  }

  function Payloads(payloads: seq<seq<byte>>): seq<Arrival> {
    if payloads == [] then [] else [Payload(payloads[0])] + Payloads(payloads[1..])
  }

  lemma ReadableOne(bytes: seq<byte>, others: seq<Arrival>)
    requires bytes != []
    ensures Readable([Payload(bytes)] + others) == bytes + Readable(others)
  {
    assert ([Payload(bytes)] + others)[1..] == others;
  }

  /** What can be read is the bytes of WRTEs with bytes, in order, up to anything else. */
  lemma {:induction false} ReadableIsConcatenation(payloads: seq<seq<byte>>, rest: seq<Arrival>)
    requires forall i | 0 <= i < |payloads| :: payloads[i] != []
    requires rest == [] || !rest[0].Payload? || rest[0].bytes == []
    ensures Readable(Payloads(payloads) + rest) == Flatten(payloads)
  {
    if payloads == [] {
      assert Payloads(payloads) + rest == rest;
    } else {
      Regrouped([Payload(payloads[0])], Payloads(payloads[1..]), rest);
      ReadableOne(payloads[0], Payloads(payloads[1..]) + rest);
      ReadableIsConcatenation(payloads[1..], rest);
    }
  }

  /** How many OKAYs are sent for what is met. */
  function Okays(met: seq<Arrival>): nat {
    if met == [] then 0
    else Okays(met[..|met| - 1]) + One(met[|met| - 1].Payload? || met[|met| - 1].Other?)
  }

  lemma OkaysGrow(met: seq<Arrival>, k: nat)
    requires k < |met|
    ensures met[k..][1..] == met[k + 1..] && met[k..][0] == met[k]
    ensures Okays(met[..k + 1]) == Okays(met[..k]) + One(met[k].Payload? || met[k].Other?)
  {
    assert met[..k + 1][..k] == met[..k];
  }

  datatype CopyEnd = Finished | Refused(message: seq<byte>) | MessageTooBig | Cut | Unknown

  datatype Copy = Copy(output: seq<byte>, end: CopyEnd)

  /** The whole-stream decoder. */
  function Copied(s: seq<byte>): Copy
    decreases |s|
  {
    if |s| < 8 then Copy([], Cut)
    else
      var id, n := s[..4], Word(s, 4);
      if id == DATA then
        if |s| < 8 + n then Copy(s[8..], Cut)
        else
          var next := Copied(s[8 + n..]);
          next.(output := s[8..8 + n] + next.output)
      else if id == DONE then Copy([], Finished)
      else if id == FAIL then
        if n > MAX_SYNC_ERROR then Copy([], MessageTooBig)
        else if |s| < 8 + n then Copy([], Cut)
        else Copy([], Refused(s[8..8 + n]))
      else Copy([], Unknown)
  }

  /** What stands behind the DONE record that ends a reply. */
  function Leftover(s: seq<byte>): seq<byte>
    decreases |s|
  {
    if |s| >= 8 && s[..4] == DATA && |s| >= 8 + Word(s, 4) then Leftover(s[8 + Word(s, 4)..])
    else if |s| >= 8 then s[8..] else []
  }

  class SyncPayloadReader {
    var queue: seq<Arrival>
    var payload: seq<byte>
    var offset: nat

    /** How many OKAYs have been sent. */
    var acknowledged: nat

    /** Everything that is ever met, and how much of it has been. */
    ghost const arrivals: seq<Arrival>
    ghost var met: nat

    constructor (queue: seq<Arrival>)
      ensures Valid() && Pending() == Readable(queue) && arrivals == queue && met == 0
    {
      this.queue, payload, offset, acknowledged := queue, [], 0, 0;
      arrivals, met := queue, 0;
    }

    /** Every message read has been acknowledged, once, but for one whose OKAY failed. */
    ghost predicate Valid()
      reads this
    {
      && offset <= |payload|
      && met <= |arrivals| && queue == arrivals[met..]
      && acknowledged == Okays(arrivals[..met])
    }

    /** Everything that can still be read. */
    ghost function Pending(): seq<byte>
      requires Valid()
      reads this
    {
      payload[offset..] + Readable(queue)
    }

    /** `recv_and_reply_okay`, of which only a WRTE is of use. */
    method Receive() returns (r: Option<seq<byte>>)
      requires Valid()
      modifies `queue, `acknowledged, `met
      ensures Valid() && met >= old(met)
      ensures if old(queue) != [] && old(queue)[0].Payload?
              then r == Some(old(queue)[0].bytes) && queue == old(queue)[1..] else r == None
      ensures acknowledged == old(acknowledged) +
                if old(queue) == [] || old(queue)[0].ReadFailed? || old(queue)[0].OkayFailed? then 0 else 1
    {
      if queue == [] {
        return None;
      }
      OkaysGrow(arrivals, met);
      var message := queue[0];
      queue, met := queue[1..], met + 1;
      if message.ReadFailed? || message.OkayFailed? {
        return None;
      }
      acknowledged := acknowledged + 1;
      return if message.Payload? then Some(message.bytes) else None;
    }

    method Read(capacity: nat) returns (r: Option<seq<byte>>)
      requires Valid()
      modifies this
      ensures Valid() && met >= old(met)
      ensures capacity == 0 ==> r == Some([]) && Pending() == old(Pending())
      ensures capacity > 0 ==>
        && (r.Some? <==> old(Pending()) != [])
        && (r.Some? ==> 0 < |r.value| <= capacity && old(Pending()) == r.value + Pending())
    {
      if capacity == 0 {
        return Some([]);
      }
      while offset == |payload|
        invariant Valid() && met >= old(met)
        invariant Pending() == old(Pending())
        decreases |queue|
      {
        var message := Receive();
        if message.None? {
          return None;
        }
        payload, offset := message.value, 0;
        if payload == [] {
          return None;
        }
      }
      var count := Min(capacity, |payload| - offset);
      r := Some(payload[offset..offset + count]);
      assert payload[offset..] == r.value + payload[offset + count..];
      offset := offset + count;
    }

    /** `read_exact`. */
    method ReadExact(n: nat) returns (r: Option<seq<byte>>)
      requires Valid()
      modifies this
      ensures Valid() && met >= old(met)
      ensures r.Some? <==> n <= |old(Pending())|
      ensures r.Some? ==> r.value == old(Pending())[..n] && Pending() == old(Pending())[n..]
    {
      ghost var all := Pending();
      var got := [];
      while |got| < n
        invariant Valid() && met >= old(met)
        invariant |got| <= n && all == got + Pending()
        decreases n - |got|
      {
        var more := Read(n - |got|);
        if more.None? {
          return None;
        }
        Regrouped(got, more.value, Pending());
        got := got + more.value;
      }
      return Some(got);
    }

    /** `io::copy` of `take(n)`: reads with buffers of any size, writing each read at once. */
    method CopyTake(n: nat) returns (output: seq<byte>, whole: bool)
      requires Valid()
      modifies this
      ensures Valid() && met >= old(met)
      ensures whole <==> n <= |old(Pending())|
      ensures whole ==> output == old(Pending())[..n] && Pending() == old(Pending())[n..]
      ensures !whole ==> output == old(Pending())
    {
      ghost var all := Pending();
      output := [];
      while |output| < n
        invariant Valid() && met >= old(met)
        invariant |output| <= n && all == output + Pending()
        decreases n - |output|
      {
        var buffer: nat :| buffer > 0;
        var more := Read(Min(buffer, n - |output|));
        if more.None? {
          return output, false;
        }
        Regrouped(output, more.value, Pending());
        output := output + more.value;
      }
      return output, true;
    }
  }

  lemma CopiedStep(s: seq<byte>)
    requires |s| >= 8 && 8 + Word(s, 4) <= |s|
    ensures var n := Word(s, 4); var next := Copied(s[8 + n..]);
            && s[8..][..n] == s[8..8 + n] && s[8..][n..] == s[8 + n..]
            && (s[..4] == DATA ==> Copied(s) == Copy(s[8..8 + n] + next.output, next.end))
  {
  }

  lemma LeftoverStep(s: seq<byte>)
    requires |s| >= 8 && s[..4] == DATA && 8 + Word(s, 4) <= |s|
    ensures Leftover(s) == Leftover(s[8 + Word(s, 4)..])
  {
  }

  /** One round of `copy_sync_file`: copies a DATA record, or ends. */
  method CopyRecord(input: SyncPayloadReader) returns (copied: seq<byte>, end: Option<CopyEnd>)
    requires input.Valid()
    modifies input
    ensures input.Valid() && input.met >= old(input.met)
    ensures end.Some? ==> Copied(old(input.Pending())) == Copy(copied, end.value)
    ensures end == Some(Finished) ==> input.Pending() == Leftover(old(input.Pending()))
    ensures end.None? ==>
      && |input.Pending()| < |old(input.Pending())|
      && Copied(old(input.Pending())) == Copy(copied + Copied(input.Pending()).output, Copied(input.Pending()).end)
      && Leftover(old(input.Pending())) == Leftover(input.Pending())
  {
    ghost var s := input.Pending();
    var header := input.ReadExact(8);
    if header.None? {
      return [], Some(Cut);
    }
    var id, length := header.value[..4], Word(header.value, 4);
    assert id == s[..4] && length == Word(s, 4);
    if id == DATA {
      var bytes, whole := input.CopyTake(length);
      if !whole {
        return bytes, Some(Cut);
      }
      CopiedStep(s);
      LeftoverStep(s);
      return bytes, None;
    }
    if id == DONE {
      return [], Some(Finished);
    }
    if id == FAIL {
      if length > MAX_SYNC_ERROR {
        return [], Some(MessageTooBig);
      }
      var message := input.ReadExact(length);
      if message.None? {
        return [], Some(Cut);
      }
      CopiedStep(s);
      return [], Some(Refused(message.value));
    }
    return [], Some(Unknown);
  }

  /**
   `copy_sync_file` writes and ends as the decoder of the whole stream does, however the stream was packetised, and has
   sent an OKAY for each message read: `Valid` ties `acknowledged` to what has been met.
   */
  method CopySyncFile(input: SyncPayloadReader) returns (output: seq<byte>, end: CopyEnd)
    requires input.Valid()
    modifies input
    ensures input.Valid() && input.met >= old(input.met)
    ensures Copy(output, end) == Copied(old(input.Pending()))
    ensures end.Finished? ==> input.Pending() == Leftover(old(input.Pending()))
  {
    output := [];
    ghost var all := input.Pending();
    while true
      invariant input.Valid() && input.met >= old(input.met)
      invariant Copied(all) == Copy(output + Copied(input.Pending()).output, Copied(input.Pending()).end)
      invariant Leftover(all) == Leftover(input.Pending())
      decreases |input.Pending()|
    {
      ghost var s := input.Pending();
      var copied, ended := CopyRecord(input);
      if ended.Some? {
        assert Copied(s) == Copy(copied, ended.value);
        return output + copied, ended.value;
      }
      Regrouped(output, copied, Copied(input.Pending()).output);
      output := output + copied;
    }
  }

  // ---- ADBRecvCommandReader ----

  datatype PullEnd = Ended | Truncated | Declined(message: seq<byte>) | Strange

  datatype Pull = Pull(output: seq<byte>, end: PullEnd)

  /**
   The whole-stream decoder.  Two ends are taken for the end of the file although no DONE has come: a DATA record
   without bytes, and a stream that stops right behind the header of a DATA record.
   */
  function Pulled(remaining: nat, s: seq<byte>): Pull
    decreases |s|, remaining
  {
    if remaining > 0 then
      if |s| < remaining then Pull(s, Truncated)
      else
        var next := Pulled(0, s[remaining..]);
        next.(output := s[..remaining] + next.output)
    else if |s| < 4 then Pull([], Truncated)
    else if s[..4] == DATA then
      if |s| < 8 then Pull([], Truncated)
      else if Word(s, 4) == 0 || |s| == 8 then Pull([], Ended)
      else Pulled(Word(s, 4), s[8..])
    else if s[..4] == DONE then Pull([], Ended)
    else if s[..4] == FAIL then
      if |s| < 8 || |s| < 8 + Word(s, 4) then Pull([], Truncated) else Pull([], Declined(s[8..8 + Word(s, 4)]))
    else Pull([], Strange)
  }

  /** The bytes of the records that are there to the end. */
  function Complete(remaining: nat, s: seq<byte>): seq<byte>
    decreases |s|, remaining
  {
    if remaining > 0 then
      if |s| < remaining then [] else s[..remaining] + Complete(0, s[remaining..])
    else if |s| > 8 && s[..4] == DATA && Word(s, 4) > 0 then Complete(Word(s, 4), s[8..])
    else []
  }

  /** `next` is what is left of `before` when `taken` has been read. */
  predicate Continues(remaining: nat, s: seq<byte>, taken: seq<byte>, left: nat, rest: seq<byte>) {
    && Pulled(remaining, s) == Pull(taken + Pulled(left, rest).output, Pulled(left, rest).end)
    && (Complete(remaining, s) == taken + Complete(left, rest) || Complete(remaining, s) == [])
  }

  /**
   What an error says of the decoder of the whole stream: only an unfinished record may have been delivered in part.
   */
  predicate Fails(remaining: nat, s: seq<byte>, error: PullEnd) {
    && error != Ended && error == Pulled(remaining, s).end
    && Complete(remaining, s) == []
    && (error != Truncated ==> Pulled(remaining, s).output == [])
  }

  class RecvCommandReader {
    var inner: seq<byte>
    var remaining: nat

    constructor (inner: seq<byte>)
      ensures this.inner == inner && remaining == 0
    {
      this.inner, remaining := inner, 0;
    }

    /** `read` of the socket: at least one byte when there is one and room for it, and perhaps fewer than asked for. */
    method ReadInner(capacity: nat) returns (r: seq<byte>)
      modifies this`inner
      ensures |r| <= capacity && old(inner) == r + inner
      ensures r == [] ==> capacity == 0 || old(inner) == []
    {
      if capacity == 0 || inner == [] {
        return [];
      }
      var count: nat :| 0 < count && count <= capacity && count <= |inner|;
      r, inner := inner[..count], inner[count..];
    }

    /** `read_exact` of the socket. */
    method ReadInnerExact(n: nat) returns (r: Option<seq<byte>>)
      modifies this`inner
      ensures |inner| <= |old(inner)|
      ensures r.Some? <==> n <= |old(inner)|
      ensures r.Some? ==> r.value == old(inner)[..n] && inner == old(inner)[n..]
    {
      var got := [];
      while |got| < n
        invariant |got| <= n && old(inner) == got + inner
      {
        var more := ReadInner(n - |got|);
        if more == [] {
          return None;
        }
        got := got + more;
      }
      return Some(got);
    }

    method Read(capacity: nat) returns (r: Result<seq<byte>, PullEnd>)
      modifies this
      ensures |inner| <= |old(inner)|
      ensures r.Ok? ==> |r.value| <= capacity
      ensures r.Err? ==> Fails(old(remaining), old(inner), r.error)
      ensures r == Ok([]) && capacity > 0 ==> Pulled(old(remaining), old(inner)) == Pull([], Ended)
      ensures r.Ok? && r.value != [] ==>
        |inner| < |old(inner)| && Continues(old(remaining), old(inner), r.value, remaining, inner)
    {
      if remaining == 0 {
        r := ReadHeader(capacity);
        return;
      }
      ghost var s, left := inner, remaining;
      var count := Min(remaining, capacity);
      var bytes := ReadInnerExact(count);
      if bytes.None? {
        return Err(Truncated);
      }
      remaining := remaining - count;
      PulledPart(left, s, count);
      CompletePart(left, s, count);
      return Ok(bytes.value);
    }

    method ReadHeader(capacity: nat) returns (r: Result<seq<byte>, PullEnd>)
      requires remaining == 0
      modifies this
      ensures |inner| <= |old(inner)|
      ensures r.Ok? ==> |r.value| <= capacity
      ensures r.Err? ==> Fails(0, old(inner), r.error)
      ensures r == Ok([]) && capacity > 0 ==> Pulled(0, old(inner)) == Pull([], Ended)
      ensures r.Ok? && r.value != [] ==>
        |inner| < |old(inner)| && Continues(0, old(inner), r.value, remaining, inner)
    {
      ghost var s := inner;
      var header := ReadInnerExact(4);
      if header.None? {
        return Err(Truncated);
      }
      if header.value == DONE {
        return Ok([]);
      }
      if header.value != DATA && header.value != FAIL {
        return Err(Strange);
      }
      var word := ReadInnerExact(4);
      if word.None? {
        return Err(Truncated);
      }
      var length := Word(word.value, 0);
      BehindHeader(s);
      if header.value == FAIL {
        r := ReadFailure(s, length);
        return;
      }
      var bytes := TakeData(s, length, capacity);
      return Ok(bytes);
    }

    /** Behind the header of a FAIL record. */
    method ReadFailure(ghost s: seq<byte>, length: nat) returns (r: Result<seq<byte>, PullEnd>)
      requires |s| >= 8 && s[..4] == FAIL && Word(s, 4) == length && inner == s[8..]
      modifies this`inner
      ensures |inner| <= |old(inner)| && r.Err? && Fails(0, s, r.error)
    {
      var message := ReadInnerExact(length);
      if message.None? {
        return Err(Truncated);
      }
      assert s[8..][..length] == s[8..8 + length];
      return Err(Declined(message.value));
    }

    /** Behind the header of a DATA record: one read of the socket. */
    method TakeData(ghost s: seq<byte>, length: nat, capacity: nat) returns (bytes: seq<byte>)
      requires |s| >= 8 && s[..4] == DATA && Word(s, 4) == length && inner == s[8..] && remaining == 0
      modifies this
      ensures |inner| <= |old(inner)| && |bytes| <= capacity
      ensures bytes == [] && capacity > 0 ==> Pulled(0, s) == Pull([], Ended)
      ensures bytes != [] ==> |inner| < |s| && Continues(0, s, bytes, remaining, inner)
    {
      bytes := ReadInner(Min(length, capacity));
      remaining := length - |bytes|;
      if bytes != [] {
        PulledPart(length, s[8..], |bytes|);
        CompletePart(length, s[8..], |bytes|);
      }
    }
  }

  lemma BehindHeader(s: seq<byte>)
    requires |s| >= 8
    ensures s[4..][..4] == s[4..8] && Word(s[4..8], 0) == Word(s, 4) && s[4..][4..] == s[8..]
  {
  }

  lemma CompletePart(remaining: nat, s: seq<byte>, count: nat)
    requires count <= remaining && count <= |s| && remaining > 0
    ensures var next := Complete(remaining - count, s[count..]);
            Complete(remaining, s) == s[..count] + next || Complete(remaining, s) == []
  {
    if |s| >= remaining {
      assert s[count..][remaining - count..] == s[remaining..];
      if count < remaining {
        assert s[..count] + s[count..][..remaining - count] == s[..remaining];
        Regrouped(s[..count], s[count..][..remaining - count], Complete(0, s[remaining..]));
      }
    }
  }

  /** Part of a record taken: what is left is the rest of the record and what follows it. */
  lemma PulledPart(remaining: nat, s: seq<byte>, count: nat)
    requires count <= remaining && count <= |s| && remaining > 0
    ensures Pulled(remaining, s) ==
            Pull(s[..count] + Pulled(remaining - count, s[count..]).output, Pulled(remaining - count, s[count..]).end)
  {
    if |s| < remaining {
      assert s[..count] + s[count..] == s;
    } else {
      assert s[count..][remaining - count..] == s[remaining..];
      if count < remaining {
        assert s[..count] + s[count..][..remaining - count] == s[..remaining];
        var rest := Pulled(0, s[remaining..]).output;
        assert s[..count] + (s[count..][..remaining - count] + rest) == s[..remaining] + rest;
      }
    }
  }

  /**
   `io::copy` out of the reader, with buffers of any size, until it reports the end.  All is delivered that the
   decoder of the whole stream gives, but for an unfinished record at the end, of which a short read decides how much.
   */
  method PullAll(reader: RecvCommandReader) returns (output: seq<byte>, end: PullEnd)
    modifies reader
    ensures end == Pulled(old(reader.remaining), old(reader.inner)).end
    ensures Complete(old(reader.remaining), old(reader.inner)) <= output
    ensures output <= Pulled(old(reader.remaining), old(reader.inner)).output
    ensures !end.Truncated? ==> output == Pulled(old(reader.remaining), old(reader.inner)).output
  {
    output := [];
    ghost var all, complete := Pulled(reader.remaining, reader.inner), Complete(reader.remaining, reader.inner);
    while true
      invariant all.output == output + Pulled(reader.remaining, reader.inner).output
      invariant all.end == Pulled(reader.remaining, reader.inner).end
      invariant complete <= output + Complete(reader.remaining, reader.inner)
      decreases |reader.inner|
    {
      ghost var left, s := reader.remaining, reader.inner;
      var buffer: nat :| buffer > 0;
      var got := reader.Read(buffer);
      if got.Err? {
        return output, got.error;
      }
      if got.value == [] {
        EndedIsComplete(left, s);
        return output, Ended;
      }
      Regrouped(output, got.value, Pulled(reader.remaining, reader.inner).output);
      Regrouped(output, got.value, Complete(reader.remaining, reader.inner));
      output := output + got.value;
    }
  }

  lemma {:induction false} CompleteInside(remaining: nat, s: seq<byte>)
    ensures Complete(remaining, s) <= Pulled(remaining, s).output
    decreases |s|, remaining
  {
    if remaining > 0 {
      if |s| >= remaining {
        CompleteInside(0, s[remaining..]);
      }
    } else if |s| > 8 && s[..4] == DATA && Word(s, 4) > 0 {
      CompleteInside(Word(s, 4), s[8..]);
    }
  }

  lemma EndedIsComplete(remaining: nat, s: seq<byte>)
    requires Pulled(remaining, s).output == []
    ensures Complete(remaining, s) == []
  {
    CompleteInside(remaining, s);
  }
}
