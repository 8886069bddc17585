/** Bytes, machine words and the two stock result types used by every module. */
module Bytes {

  datatype Option<+T> = None | Some(value: T) {
    function UnwrapOr(other: T): T {
      if Some? then value else other
    }
  }

  datatype Result<+T, +E> = Ok(value: T) | Err(error: E)

  type byte = x: int | 0 <= x < 0x100
  type u32 = x: int | 0 <= x < 0x1_0000_0000
  type u64 = x: int | 0 <= x < 0x1_0000_0000_0000_0000
  type pos32 = x: int | 1 <= x < 0x1_0000_0000 witness 1

  const U32_MAX: u32 := 0xFFFF_FFFF

  /** `u32::to_le_bytes`. */
  function Le32(x: u32): (r: seq<byte>)
    ensures |r| == 4
  {
    [x % 0x100, x / 0x100 % 0x100, x / 0x1_0000 % 0x100, x / 0x100_0000]
  }

  /** `u32::from_le_bytes` of the four bytes at `at`. */
  function Word(b: seq<byte>, at: nat): u32
    requires at + 4 <= |b|
  {
    b[at] as int + 0x100 * b[at + 1] as int + 0x1_0000 * b[at + 2] as int + 0x100_0000 * b[at + 3] as int
  }

  lemma WordOfLe32(x: u32)
    ensures Word(Le32(x), 0) == x
  {
    assert x == x / 0x100_0000 * 0x100_0000 + x / 0x1_0000 % 0x100 * 0x1_0000 + x / 0x100 % 0x100 * 0x100 + x % 0x100;
  }

  /** The lowest byte of a number, and the rest. */
  lemma LowByte(x: nat, low: byte, high: nat)
    requires x == low as int + 0x100 * high
    ensures x % 0x100 == low && x / 0x100 == high
  {
  }

  lemma Le32OfBytes(x: u32, b0: byte, b1: byte, b2: byte, b3: byte)
    requires x == b0 as int + 0x100 * b1 as int + 0x1_0000 * b2 as int + 0x100_0000 * b3 as int
    ensures Le32(x) == [b0, b1, b2, b3]
  {
    var high2 := b2 as int + 0x100 * b3 as int;
    var high1 := b1 as int + 0x100 * high2;
    LowByte(x, b0, high1);
    LowByte(high1, b1, high2);
    LowByte(high2, b2, b3);
    assert x / 0x1_0000 == high2 && x / 0x100_0000 == b3;
  }

  lemma Le32OfWord(b: seq<byte>, at: nat)
    requires at + 4 <= |b|
    ensures Le32(Word(b, at)) == b[at..at + 4]
  {
    Le32OfBytes(Word(b, at), b[at], b[at + 1], b[at + 2], b[at + 3]);
  }

  /** A word depends only on its own four bytes. */
  lemma WordInside(a: seq<byte>, b: seq<byte>, at: nat)
    requires at + 4 <= |a|
    ensures Word(a + b, at) == Word(a, at)
  {
  }

  /** `u64::from_le_bytes`. */
  function LongWord(b: seq<byte>, at: nat): u64
    requires at + 8 <= |b|
  {
    Word(b, at) + 0x1_0000_0000 * Word(b, at + 4)
  }

  /** `u64::to_le_bytes`. */
  function Le64(x: u64): (r: seq<byte>)
    ensures |r| == 8
  {
    Le32(x % 0x1_0000_0000) + Le32(x / 0x1_0000_0000)
  }

  /** The concatenation of the given chunks, in order. */
  function Flatten<T>(chunks: seq<seq<T>>): seq<T> {
    if chunks == [] then [] else chunks[0] + Flatten(chunks[1..])
  }

  lemma {:induction false} FlattenAppend<T>(a: seq<seq<T>>, b: seq<seq<T>>)
    ensures Flatten(a + b) == Flatten(a) + Flatten(b)
  {
    if a == [] {
      assert a + b == b;
    } else {
      assert (a + b)[1..] == a[1..] + b;
      FlattenAppend(a[1..], b);
    }
  }

  lemma Regrouped<T>(a: seq<T>, b: seq<T>, c: seq<T>)
    ensures a + (b + c) == a + b + c
  {
  }

  function Min(a: nat, b: nat): nat {
    if a < b then a else b
  }

  /** One for true, so that flags can be counted. */
  function One(b: bool): nat {
    if b then 1 else 0
  }
}
