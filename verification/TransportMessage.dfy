/**
 The blocking client's own packet codec (adb_client/src/message_devices/adb_transport_message.rs), and its agreement
 with the one in `Message`.
 */
module TransportMessage {
  import opened Bytes
  import Message

  const MAX_ADB_MESSAGE_PAYLOAD: u32 := 1024 * 1024

  /** Longest payload whose byte sum fits a 32-bit word whatever the bytes are. */
  const LONGEST_SUMMABLE: nat := 16_843_009

  datatype Header = Header(command: Message.Command, arg0: u32, arg1: u32, dataLength: u32, dataCrc32: u32, magic: u32)

  datatype Error = Conversion | InvalidMagic | TooLarge | InvalidIntegrity | Incomplete

  /** The plain byte sum. */
  function Sum(data: seq<byte>): nat {
    if data == [] then 0 else Sum(data[..|data| - 1]) + data[|data| - 1]
  }

  /** `Iterator::sum` over u32: the plain sum when it fits, a panic or a wrap otherwise. */
  function ComputeCrc32(data: seq<byte>): Option<u32> {
    if Sum(data) <= U32_MAX then Some(Sum(data)) else None
  }

  lemma WrapLater(sum: nat, b: nat)
    ensures (sum % 0x1_0000_0000 + b) % 0x1_0000_0000 == (sum + b) % 0x1_0000_0000
  {
    var q, r := sum / 0x1_0000_0000, sum % 0x1_0000_0000 + b;
    assert sum + b == q * 0x1_0000_0000 + r;
    assert sum + b == (q + r / 0x1_0000_0000) * 0x1_0000_0000 + r % 0x1_0000_0000;
  }

  lemma {:induction false} SumsAgree(data: seq<byte>)
    ensures Message.Checksum(data) == Sum(data) % 0x1_0000_0000
    ensures Sum(data) <= 255 * |data|
    ensures |data| <= LONGEST_SUMMABLE ==> ComputeCrc32(data) == Some(Message.Checksum(data))
  {
    if data != [] {
      var init, last := data[..|data| - 1], data[|data| - 1];
      SumsAgree(init);
      WrapLater(Sum(init), last);
    }
  }

  /** One byte more and the sums can differ. */
  lemma LongestSummableIsTight()
    ensures var data := seq(LONGEST_SUMMABLE + 1, (i: nat) => 255 as byte);
            ComputeCrc32(data) == None
  {
    SumOfOnes(LONGEST_SUMMABLE + 1);
  }

  lemma {:induction false} SumOfOnes(n: nat)
    ensures Sum(seq(n, (i: nat) => 255 as byte)) == 255 * n
  {
    if n > 0 {
      var data := seq(n, (i: nat) => 255 as byte);
      assert data[..n - 1] == seq(n - 1, (i: nat) => 255 as byte);
      SumOfOnes(n - 1);
    }
  }

  function DecodeHeader(data: seq<byte>): Result<Header, Error> {
    if |data| != 24 then Err(Conversion)
    else
      match Message.FromCode(Word(data, 0))
      case None => Err(Conversion)
      case Some(c) => Ok(Header(c, Word(data, 4), Word(data, 8), Word(data, 12), Word(data, 16), Word(data, 20)))
  }

  function ValidateBeforePayload(h: Header): Option<Error> {
    if h.magic != Message.Magic(h.command) then Some(InvalidMagic)
    else if h.dataLength > MAX_ADB_MESSAGE_PAYLOAD then Some(TooLarge)
    else None
  }

  predicate CheckMessageIntegrity(h: Header, payload: seq<byte>) {
    Message.Magic(h.command) == h.magic && ComputeCrc32(payload) == Some(h.dataCrc32)
  }

  /** A transport's blocking read of one message off a byte stream that then ends: the message and its length. */
  function ReadMessage(stream: seq<byte>): Result<(Message.Packet, nat), Error> {
    if |stream| < 24 then Err(Incomplete)
    else
      match DecodeHeader(stream[..24])
      case Err(e) => Err(e)
      case Ok(h) =>
        match ValidateBeforePayload(h)
        case Some(e) => Err(e)
        case None =>
          if |stream| < 24 + h.dataLength then Err(Incomplete)
          else
            var payload := stream[24..24 + h.dataLength];
            if !CheckMessageIntegrity(h, payload) then Err(InvalidIntegrity)
            else Ok((Message.Packet(h.command, h.arg0, h.arg1, payload), 24 + h.dataLength))
  }

  /** Both codecs take the same packets off every byte stream: one accepts exactly when the other does. */
  lemma CodecsAcceptTheSame(stream: seq<byte>, p: Message.Packet, used: nat)
    ensures ReadMessage(stream) == Ok((p, used)) <==>
            Message.Parse(stream, MAX_ADB_MESSAGE_PAYLOAD, true) == Message.Got(used, p)
  {
    if |stream| >= 24 {
      assert stream == stream[..24] + stream[24..];
      Message.ParseHeaderInside(stream[..24], stream[24..], MAX_ADB_MESSAGE_PAYLOAD);
      var h := DecodeHeader(stream[..24]);
      if h.Ok? && |stream| >= 24 + h.value.dataLength {
        SumsAgree(stream[24..24 + h.value.dataLength]);
      }
    }
  }

  function TryNewHeader(command: Message.Command, arg0: u32, arg1: u32, data: seq<byte>): Option<Header> {
    if |data| > U32_MAX || ComputeCrc32(data).None? then None
    else Some(Header(command, arg0, arg1, |data|, ComputeCrc32(data).value, Message.Magic(command)))
  }

  function EncodeHeader(h: Header): seq<byte> {
    Le32(Message.Code(h.command)) + Le32(h.arg0) + Le32(h.arg1) + Le32(h.dataLength) + Le32(h.dataCrc32) + Le32(h.magic)
  }

  /** What one crate writes the other reads: the headers are the same bytes. */
  lemma CodecsWriteTheSame(p: Message.Packet)
    requires |p.payload| <= LONGEST_SUMMABLE
    ensures var h := TryNewHeader(p.command, p.arg0, p.arg1, p.payload);
            h.Some? && EncodeHeader(h.value) == Message.EncodeHeader(p)
  {
    SumsAgree(p.payload);
  }
}
