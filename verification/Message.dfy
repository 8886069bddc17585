/**
 ADB packets on the wire (adb_proto/src/message.rs): the header layout, the payload checksum and the incremental
 decoder.  `Parse` reads a packet off the front of a byte string in one go; `PacketDecoder` does the same work in
 two phases around a pending header, and is proved to agree with it.
 */
module Message {
  import opened Bytes

  const HEADER_LEN: nat := 24

  datatype Command = Cnxn | Clse | Auth | Open | Wrte | Okay | Stls

  function Code(command: Command): u32 {
    match command
    case Cnxn => 0x4E58_4E43
    case Clse => 0x4553_4C43
    case Auth => 0x4854_5541
    case Open => 0x4E45_504F
    case Wrte => 0x4554_5257
    case Okay => 0x5941_4B4F
    case Stls => 0x534C_5453
  }

  /** `Command::try_from`. */
  function FromCode(value: u32): (r: Option<Command>)
    ensures forall c: Command :: r == Some(c) <==> value == Code(c)
  {
    if value == 0x4E58_4E43 then Some(Cnxn)
    else if value == 0x4553_4C43 then Some(Clse)
    else if value == 0x4854_5541 then Some(Auth)
    else if value == 0x4E45_504F then Some(Open)
    else if value == 0x4554_5257 then Some(Wrte)
    else if value == 0x5941_4B4F then Some(Okay)
    else if value == 0x534C_5453 then Some(Stls)
    else None
  }

  /** Exclusive or with all ones is the complement, which for a 32-bit word is a subtraction. */
  function Magic(command: Command): u32 {
    U32_MAX - Code(command)
  }

  datatype Packet = Packet(command: Command, arg0: u32, arg1: u32, payload: seq<byte>)

  /** The name of a command in ASCII. */
  function Letters(command: Command): (r: seq<byte>)
    ensures |r| == 4
  {
    match command
    case Cnxn => [0x43, 0x4E, 0x58, 0x4E]
    case Clse => [0x43, 0x4C, 0x53, 0x45]
    case Auth => [0x41, 0x55, 0x54, 0x48]
    case Open => [0x4F, 0x50, 0x45, 0x4E]
    case Wrte => [0x57, 0x52, 0x54, 0x45]
    case Okay => [0x4F, 0x4B, 0x41, 0x59]
    case Stls => [0x53, 0x54, 0x4C, 0x53]
  }

  /** On the wire a command is its name, and its magic word the complement of each of the letters. */
  lemma CommandsAreSpelled(command: Command)
    ensures var l := Letters(command);
            && Le32(Code(command)) == l
            && Le32(Magic(command)) == [0xFF - l[0], 0xFF - l[1], 0xFF - l[2], 0xFF - l[3]]
  {
    var l := Letters(command);
    Le32OfBytes(Code(command), l[0], l[1], l[2], l[3]);
    Le32OfBytes(Magic(command), 0xFF - l[0], 0xFF - l[1], 0xFF - l[2], 0xFF - l[3]);
  }

  /** The byte sum of the payload, wrapping at 32 bits. */
  function Checksum(data: seq<byte>): u32 {
    if data == [] then 0
    else (Checksum(data[..|data| - 1]) + data[|data| - 1]) % 0x1_0000_0000
  }

  /** The six header words, with any word for the checksum. */
  function HeaderWith(p: Packet, checksum: u32): (r: seq<byte>)
    requires |p.payload| <= U32_MAX
    ensures |r| == HEADER_LEN
  {
    Le32(Code(p.command)) + Le32(p.arg0) + Le32(p.arg1) + Le32(|p.payload|) + Le32(checksum) + Le32(Magic(p.command))
  }

  /** The header of a packet.  A payload longer than a word can say makes the source panic. */
  function EncodeHeader(p: Packet): (r: seq<byte>)
    requires |p.payload| <= U32_MAX
    ensures |r| == HEADER_LEN
  {
    HeaderWith(p, Checksum(p.payload))
  }

  /** Header and payload as they follow each other on a byte stream. */
  function Encode(p: Packet): seq<byte>
    requires |p.payload| <= U32_MAX
  {
    EncodeHeader(p) + p.payload
  }

  datatype DecodeError = BadMagic | PayloadTooLarge(len: u32, max: u32) | BadChecksum | UnknownCommand(code: u32)

  /** What the front of a byte string holds.  `used` bytes are consumed, also when a packet is rejected. */
  datatype Parsed = NeedMore | Bad(used: nat, error: DecodeError) | Got(used: nat, packet: Packet)

  datatype PendingHeader = PendingHeader(command: Command, arg0: u32, arg1: u32, len: u32, checksum: u32)

  /** The checks made on a header before its payload has arrived, in the order they are made. */
  function ParseHeader(b: seq<byte>, maxPayload: u32): Result<PendingHeader, DecodeError>
    requires |b| >= HEADER_LEN
  {
    var command := FromCode(Word(b, 0));
    var len := Word(b, 12);
    if command.None? then Err(UnknownCommand(Word(b, 0)))
    else if Word(b, 20) != Magic(command.value) then Err(BadMagic)
    else if len > maxPayload then Err(PayloadTooLarge(len, maxPayload))
    else Ok(PendingHeader(command.value, Word(b, 4), Word(b, 8), len, Word(b, 16)))
  }

  function Parse(b: seq<byte>, maxPayload: u32, verify: bool): Parsed {
    if |b| < HEADER_LEN then NeedMore
    else
      match ParseHeader(b, maxPayload)
      case Err(e) => Bad(0, e)
      case Ok(h) =>
        if |b| < HEADER_LEN + h.len then NeedMore
        else
          var payload := b[HEADER_LEN..HEADER_LEN + h.len];
          if verify && Checksum(payload) != h.checksum then Bad(HEADER_LEN + h.len, BadChecksum)
          else Got(HEADER_LEN + h.len, Packet(h.command, h.arg0, h.arg1, payload))
  }

  /** The header is decided by its own 24 bytes. */
  lemma ParseHeaderInside(a: seq<byte>, b: seq<byte>, maxPayload: u32)
    requires |a| >= HEADER_LEN
    ensures ParseHeader(a + b, maxPayload) == ParseHeader(a, maxPayload)
  {
    WordInside(a, b, 0);
    WordInside(a, b, 4);
    WordInside(a, b, 8);
    WordInside(a, b, 12);
    WordInside(a, b, 16);
    WordInside(a, b, 20);
  }

  /** What `Parse` decides on some bytes it still decides with more bytes behind them. */
  lemma ParseIsPrompt(a: seq<byte>, b: seq<byte>, maxPayload: u32, verify: bool)
    ensures var r := Parse(a, maxPayload, verify);
            && (r.Got? ==> HEADER_LEN <= r.used <= |a|)
            && (r.Bad? ==> r.used <= |a|)
            && (!r.NeedMore? ==> Parse(a + b, maxPayload, verify) == r)
  {
    if |a| >= HEADER_LEN {
      ParseHeaderInside(a, b, maxPayload);
      var h := ParseHeader(a, maxPayload);
      if h.Ok? && |a| >= HEADER_LEN + h.value.len {
        assert (a + b)[HEADER_LEN..HEADER_LEN + h.value.len] == a[HEADER_LEN..HEADER_LEN + h.value.len];
      }
    }
  }

  /** The header words read back. */
  lemma HeaderWords(p: Packet, checksum: u32, tail: seq<byte>)
    requires |p.payload| <= U32_MAX
    ensures var b := HeaderWith(p, checksum) + tail;
            && Word(b, 0) == Code(p.command)
            && Word(b, 4) == p.arg0
            && Word(b, 8) == p.arg1
            && Word(b, 12) == |p.payload|
            && Word(b, 16) == checksum
            && Word(b, 20) == Magic(p.command)
  {
    WordOfLe32(Code(p.command));
    WordOfLe32(p.arg0);
    WordOfLe32(p.arg1);
    WordOfLe32(|p.payload|);
    WordOfLe32(checksum);
    WordOfLe32(Magic(p.command));
  }

  /** Reading what was written gives the packet back and consumes exactly its bytes, checked or not. */
  lemma ParseOfEncode(p: Packet, tail: seq<byte>, maxPayload: u32, verify: bool)
    requires |p.payload| <= maxPayload
    ensures Parse(Encode(p) + tail, maxPayload, verify) == Got(HEADER_LEN + |p.payload|, p)
  {
    var b := Encode(p) + tail;
    assert b == EncodeHeader(p) + (p.payload + tail);
    HeaderWords(p, Checksum(p.payload), p.payload + tail);
    assert b[HEADER_LEN..HEADER_LEN + |p.payload|] == p.payload;
  }

  /** The only byte strings that decode to a packet with checking on start with the packet's encoding. */
  lemma EncodeOfParse(b: seq<byte>, maxPayload: u32)
    ensures var r := Parse(b, maxPayload, true);
            r.Got? ==>
              |r.packet.payload| <= maxPayload && r.used == |Encode(r.packet)| && b[..r.used] == Encode(r.packet)
  {
    var r := Parse(b, maxPayload, true);
    if r.Got? {
      Le32OfWord(b, 0);
      Le32OfWord(b, 4);
      Le32OfWord(b, 8);
      Le32OfWord(b, 12);
      Le32OfWord(b, 16);
      Le32OfWord(b, 20);
      var e := EncodeHeader(r.packet);
      assert e == b[0..4] + b[4..8] + b[8..12] + b[12..16] + b[16..20] + b[20..24];
      assert b[..HEADER_LEN] == e;
      assert b[..r.used] == b[..HEADER_LEN] + b[HEADER_LEN..r.used];
    }
  }

  function EncodeAll(packets: seq<Packet>): seq<byte>
    requires forall p <- packets :: |p.payload| <= U32_MAX
  {
    if packets == [] then [] else Encode(packets[0]) + EncodeAll(packets[1..])
  }

  /** The packets a decoder hands out until it needs more bytes or fails, and that failure. */
  function ParseAll(b: seq<byte>, maxPayload: u32, verify: bool): (seq<Packet>, seq<byte>, Option<DecodeError>)
    decreases |b|
  {
    match Parse(b, maxPayload, verify)
    case NeedMore => ([], b, None)
    case Bad(n, e) => ParseIsPrompt(b, [], maxPayload, verify); ([], b[n..], Some(e))
    case Got(n, p) =>
      ParseIsPrompt(b, [], maxPayload, verify);
      var (ps, rest, e) := ParseAll(b[n..], maxPayload, verify);
      ([p] + ps, rest, e)
  }

  lemma ParseAllStep(p: Packet, ps: seq<Packet>, tail: seq<byte>, maxPayload: u32, verify: bool)
    requires |p.payload| <= maxPayload
    requires ParseAll(tail, maxPayload, verify) == (ps, [], None)
    ensures ParseAll(Encode(p) + tail, maxPayload, verify) == ([p] + ps, [], None)
  {
    ParseOfEncode(p, tail, maxPayload, verify);
    assert (Encode(p) + tail)[|Encode(p)|..] == tail;
  }

  /** Decoding the concatenated encodings of any packets within the limit gives those packets, and nothing is left. */
  lemma {:induction false} RoundTripAll(packets: seq<Packet>, maxPayload: u32, verify: bool)
    requires forall p <- packets :: |p.payload| <= maxPayload
    ensures ParseAll(EncodeAll(packets), maxPayload, verify) == (packets, [], None)
  {
    if packets == [] {
      assert Parse([], maxPayload, verify) == NeedMore;
    } else {
      var tail := EncodeAll(packets[1..]);
      RoundTripAll(packets[1..], maxPayload, verify);
      ParseAllStep(packets[0], packets[1..], tail, maxPayload, verify);
      assert EncodeAll(packets) == Encode(packets[0]) + tail;
      assert [packets[0]] + packets[1..] == packets;
    }
  }

  /**
   A packet whose payload and checksum word do not go together, whichever of them was altered, is lost, and no other:
   the decoder is aligned on the packet behind it.
   */
  lemma ChecksumErrorKeepsAlignment(p: Packet, checksum: u32, payload: seq<byte>, tail: seq<byte>, maxPayload: u32)
    requires |p.payload| <= maxPayload && |payload| == |p.payload| && Checksum(payload) != checksum
    ensures Parse(HeaderWith(p, checksum) + payload + tail, maxPayload, true) == Bad(|Encode(p)|, BadChecksum)
    ensures (HeaderWith(p, checksum) + payload + tail)[|Encode(p)|..] == tail
  {
    var b := HeaderWith(p, checksum) + payload + tail;
    assert b == HeaderWith(p, checksum) + (payload + tail);
    HeaderWords(p, checksum, payload + tail);
    assert b[HEADER_LEN..HEADER_LEN + |p.payload|] == payload;
  }

  /** A rejected header is never skipped: the same error comes back however many bytes follow. */
  lemma FramingErrorRepeats(a: seq<byte>, b: seq<byte>, maxPayload: u32, verify: bool)
    requires var r := Parse(a, maxPayload, verify); r.Bad? && r.error != BadChecksum
    ensures var r := Parse(a, maxPayload, verify);
            && r.used == 0
            && Parse(a[r.used..] + b, maxPayload, verify) == r
  {
    ParseIsPrompt(a, b, maxPayload, verify);
    assert a[0..] == a;
  }

  class PacketDecoder {
    var buf: seq<byte>
    var header: Option<PendingHeader>
    const maxPayload: u32
    var verifyChecksum: bool

    /** The bytes the pending header was read from. */
    ghost var headerBytes: seq<byte>

    ghost predicate Valid()
      reads this
    {
      match header
      case None => headerBytes == []
      case Some(h) => |headerBytes| == HEADER_LEN && ParseHeader(headerBytes, maxPayload) == Ok(h)
    }

    /** The input that has not been turned into a packet or an error yet. */
    ghost function Unread(): seq<byte>
      reads this
    {
      headerBytes + buf
    }

    constructor (maxPayload: u32)
      ensures Valid() && Unread() == [] && this.maxPayload == maxPayload && verifyChecksum
    {
      buf := [];
      header := None;
      this.maxPayload := maxPayload;
      verifyChecksum := true;
      headerBytes := [];
    }

    method SetVerifyChecksum(verify: bool)
      requires Valid()
      modifies this
      ensures Valid() && verifyChecksum == verify && Unread() == old(Unread())
    {
      verifyChecksum := verify;
    }

    method Push(bytes: seq<byte>)
      requires Valid()
      modifies this
      ensures Valid() && verifyChecksum == old(verifyChecksum)
      ensures Unread() == old(Unread()) + bytes
    {
      buf := buf + bytes;
      assert headerBytes + (old(buf) + bytes) == headerBytes + old(buf) + bytes;
    }

    /** The two phases together do what `Parse` does at once on everything unread. */
    method NextPacket() returns (r: Result<Option<Packet>, DecodeError>)
      requires Valid()
      modifies this`buf, this`header, this`headerBytes
      ensures Valid()
      ensures match Parse(old(Unread()), maxPayload, verifyChecksum)
              case NeedMore => r == Ok(None) && Unread() == old(Unread())
              case Bad(n, e) => r == Err(e) && n <= |old(Unread())| && Unread() == old(Unread())[n..]
              case Got(n, p) => r == Ok(Some(p)) && n <= |old(Unread())| && Unread() == old(Unread())[n..]
    {
      if header.None? {
        if |buf| < HEADER_LEN {
          return Ok(None);
        }
        r := TakeHeader();
        if r.Err? {
          return;
        }
      }
      ghost var unread := Unread();
      ParseHeaderInside(headerBytes, buf, maxPayload);
      var h := header.value;
      if |buf| < h.len {
        return Ok(None);
      }
      var payload := buf[..h.len];
      assert payload == unread[HEADER_LEN..HEADER_LEN + h.len];
      buf := buf[h.len..];
      header := None;
      headerBytes := [];
      assert Unread() == unread[HEADER_LEN + h.len..];
      if verifyChecksum && Checksum(payload) != h.checksum {
        return Err(BadChecksum);
      }
      return Ok(Some(Packet(h.command, h.arg0, h.arg1, payload)));
    }

    /** The first phase: check the header and set it aside. */
    method TakeHeader() returns (r: Result<Option<Packet>, DecodeError>)
      requires Valid() && header.None? && |buf| >= HEADER_LEN
      modifies this`buf, this`header, this`headerBytes
      ensures Valid() && Unread() == old(Unread())
      ensures match ParseHeader(old(Unread()), maxPayload)
              case Err(e) => r == Err(e) && header.None?
              case Ok(h) => r == Ok(None) && header == Some(h)
    {
      assert Unread() == buf;
      var parsed := ParseHeader(buf, maxPayload);
      if parsed.Err? {
        return Err(parsed.error);
      }
      ParseHeaderInside(buf[..HEADER_LEN], buf[HEADER_LEN..], maxPayload);
      assert buf[..HEADER_LEN] + buf[HEADER_LEN..] == buf;
      headerBytes := buf[..HEADER_LEN];
      header := Some(parsed.value);
      buf := buf[HEADER_LEN..];
      return Ok(None);
    }
  }
}
