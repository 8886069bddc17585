/**
 The 256-bit little-endian arithmetic of the pairing code (adb_client/src/wireless.rs:350-378), loop by loop, against
 the integers it stands for.
 */
module Bignum {
  import opened Bytes

  /** The number a little-endian byte string stands for. */
  function Value(s: seq<byte>): nat {
    if s == [] then 0 else s[0] as int + 0x100 * Value(s[1..])
  }

  function Pow256(n: nat): (r: nat)
    ensures r > 0
  {
    if n == 0 then 1 else 0x100 * Pow256(n - 1)
  }

  /** One past the largest number 32 bytes can hold. */
  const TWO_256: nat := 0x1_0000000000000000_0000000000000000_0000000000000000_0000000000000000

  lemma Pow256Of32()
    ensures Pow256(32) == TWO_256
  {
    Pow256Of16();
    Pow256Sum(16, 16);
  }

  lemma {:induction false} Pow256Sum(a: nat, b: nat)
    ensures Pow256(a + b) == Pow256(a) * Pow256(b)
  {
    if a > 0 {
      Pow256Sum(a - 1, b);
      assert Pow256(a + b) == 0x100 * (Pow256(a - 1) * Pow256(b)) == (0x100 * Pow256(a - 1)) * Pow256(b);
    }
  }

  lemma {:induction false} ValueSnoc(s: seq<byte>, x: byte)
    ensures Value(s + [x]) == Value(s) + Pow256(|s|) * x
  {
    if s == [] {
      assert [x][1..] == [];
    } else {
      assert (s + [x])[1..] == s[1..] + [x];
      ValueSnoc(s[1..], x);
      var p, q := Pow256(|s| - 1), x as int;
      assert 0x100 * (p * q) == (0x100 * p) * q;
    }
  }

  lemma {:induction false} ValueBound(s: seq<byte>)
    ensures Value(s) < Pow256(|s|)
  {
    if s != [] {
      ValueBound(s[1..]);
    }
  }

  /** The prefix one byte longer. */
  lemma ValuePrefix(s: seq<byte>, i: nat)
    requires i < |s|
    ensures Value(s[..i + 1]) == Value(s[..i]) + Pow256(i) * s[i]
  {
    assert s[..i + 1] == s[..i] + [s[i]];
    ValueSnoc(s[..i], s[i]);
  }

  lemma MultipleIsFar(d: int, modulus: nat)
    ensures d >= 1 ==> d * modulus >= modulus
    ensures d <= -1 ==> d * modulus <= -(modulus as int)
  {
  }

  lemma ModuloOf(whole: nat, part: nat, carry: nat, modulus: nat)
    requires whole == part + carry * modulus && part < modulus
    ensures part == whole % modulus && (whole < modulus ==> part == whole)
  {
    var q, r := whole / modulus, whole % modulus;
    assert whole == r + q * modulus;
    assert (carry - q) * modulus == carry * modulus - q * modulus;
    MultipleIsFar(carry - q, modulus);
  }

  /** One column of a sum, at weight `p`. */
  lemma Column(p: nat, sum: nat, digit: nat, carry: nat)
    requires sum == digit + 0x100 * carry
    ensures p * digit + carry * (0x100 * p) == p * sum
  {
    assert p * sum == p * digit + p * (0x100 * carry);
    assert p * (0x100 * carry) == carry * (0x100 * p);
  }

  /** Exact addition modulo 2^256. */
  method AddLe(left: array<byte>, right: array<byte>) returns (output: array<byte>)
    requires left.Length == 32 && right.Length == 32
    ensures fresh(output) && output.Length == 32
    ensures Value(output[..]) == (Value(left[..]) + Value(right[..])) % TWO_256
  {
    output := new byte[32](_ => 0);
    var carry := AddColumns(left, right, output);
    AddDone(left[..], right[..], output[..], carry);
  }

  /** The loop over the columns, and the carry out of the last one, which is dropped. */
  method AddColumns(left: array<byte>, right: array<byte>, output: array<byte>) returns (carry: nat)
    requires left.Length == right.Length == output.Length && output !in {left, right}
    modifies output
    ensures Summed(left[..], right[..], output[..], carry)
  {
    carry := 0;
    SummedFirst(left[..], right[..], output[..0]);
    for index := 0 to output.Length
      invariant 0 <= carry <= 1
      invariant Summed(left[..], right[..], output[..index], carry)
    {
      carry := AddColumn(left, right, output, index, carry);
    }
    assert output[..output.Length] == output[..];
  }

  /** One round of the loop above. */
  method AddColumn(left: array<byte>, right: array<byte>, output: array<byte>, index: nat, carry: nat)
    returns (next: nat)
    requires left.Length == right.Length == output.Length && output !in {left, right} && index < output.Length
    requires carry <= 1 && Summed(left[..], right[..], output[..index], carry)
    modifies output
    ensures next <= 1 && Summed(left[..], right[..], output[..index + 1], next)
  {
    ghost var l, r, before := left[..], right[..], output[..index];
    var sum := left[index] as int + right[index] as int + carry;
    AddStep(l, r, before, carry);
    output[index] := sum % 0x100;
    next := sum / 0x100;
    assert output[..index + 1] == before + [sum % 0x100];
    assert left[..] == l && right[..] == r;
  }

  lemma SummedFirst(left: seq<byte>, right: seq<byte>, output: seq<byte>)
    requires output == []
    ensures Summed(left, right, output, 0)
  {
  }

  /** The columns added so far, and the carry out of them. */
  ghost predicate Summed(left: seq<byte>, right: seq<byte>, output: seq<byte>, carry: nat) {
    && |output| <= |left| && |output| <= |right|
    && Value(output) + carry * Pow256(|output|) == Value(left[..|output|]) + Value(right[..|output|])
  }

  lemma AddDone(left: seq<byte>, right: seq<byte>, output: seq<byte>, carry: nat)
    requires |left| == |right| == |output| == 32 && Summed(left, right, output, carry)
    ensures Value(output) == (Value(left) + Value(right)) % TWO_256
  {
    assert left[..32] == left && right[..32] == right;
    ValueBound(output);
    Pow256Of32();
    ModuloOf(Value(left) + Value(right), Value(output), carry, TWO_256);
  }

  lemma AddStep(left: seq<byte>, right: seq<byte>, output: seq<byte>, carry: nat)
    requires |output| < |left| && |output| < |right| && Summed(left, right, output, carry)
    ensures var sum := left[|output|] as int + right[|output|] as int + carry;
            Summed(left, right, output + [sum % 0x100], sum / 0x100)
  {
    var i := |output|;
    var sum := left[i] as int + right[i] as int + carry;
    var digit: byte, next, p := sum % 0x100, sum / 0x100, Pow256(i);
    ValuePrefix(left, i);
    ValuePrefix(right, i);
    ValueSnoc(output, digit);
    Column(p, sum, digit, next);
    Distribute(p, left[i], right[i], carry);
  }

  lemma Distribute(p: nat, a: nat, b: nat, c: nat)
    ensures p * (a + b + c) == p * a + p * b + c * p
  {
  }

  /** Multiplication by eight modulo 2^256, in place; exact for values below 2^253. */
  method ShiftLeftThree(value: array<byte>)
    requires value.Length == 32
    modifies value
    ensures Value(value[..]) == 8 * old(Value(value[..])) % TWO_256
    ensures 8 * old(Value(value[..])) < TWO_256 ==> Value(value[..]) == 8 * old(Value(value[..]))
  {
    ghost var was := value[..];
    var carry := 0;
    for index := 0 to 32
      invariant 0 <= carry < 8
      invariant value[index..] == was[index..]
      invariant Value(value[..index]) + carry * Pow256(index) == 8 * Value(was[..index])
    {
      assert value[index] == value[index..][0] == was[index..][0];
      assert value[index + 1..] == value[index..][1..] == was[index..][1..] == was[index + 1..];
      ghost var before, behind := value[..index], value[index + 1..];
      ShiftByte(value[index], carry);
      var next := value[index] as int / 0x20;
      value[index] := value[index] as int * 8 % 0x100 + carry;
      assert value[..index] == before && value[index + 1..] == behind;
      ShiftStep(was, value[..], index, carry, next);
      carry := next;
    }
    assert value[..32] == value[..] && was[..32] == was;
    ValueBound(value[..]);
    Pow256Of32();
    ModuloOf(8 * Value(was), Value(value[..]), carry, TWO_256);
  }

  lemma ShiftColumn(p: nat, w: nat, carry: nat, digit: nat, next: nat)
    requires 8 * w + carry == digit + 0x100 * next
    ensures p * digit + next * (0x100 * p) == 8 * (p * w) + carry * p
  {
    Column(p, 8 * w + carry, digit, next);
    var eight := 8 * w;
    assert p * (eight + carry) == p * eight + p * carry;
    assert p * (8 * w) == 8 * (p * w);
  }

  lemma ShiftStep(was: seq<byte>, now: seq<byte>, i: nat, carry: nat, next: nat)
    requires i < |was| && i < |now|
    requires Value(now[..i]) + carry * Pow256(i) == 8 * Value(was[..i])
    requires 8 * was[i] as int + carry == now[i] as int + 0x100 * next
    ensures Value(now[..i + 1]) + next * Pow256(i + 1) == 8 * Value(was[..i + 1])
  {
    ValuePrefix(was, i);
    ValuePrefix(now, i);
    ShiftColumn(Pow256(i), was[i] as int, carry, now[i] as int, next);
  }

  /** The shifted byte and the three bits carried out of it. */
  lemma ShiftByte(w: byte, carry: nat)
    requires carry < 8
    ensures w as int * 8 % 0x100 + carry < 0x100
    ensures 8 * w as int + carry == (w as int * 8 % 0x100 + carry) + 0x100 * (w as int / 0x20)
  {
    assert w as int == w as int % 0x20 + 0x20 * (w as int / 0x20);
    assert w as int * 8 == 8 * (w as int % 0x20) + 0x100 * (w as int / 0x20);
  }

  // ---- The group order ----

  /** The order of the base point: section 5.1 of RFC 8032. */
  const L: nat := 0x1000000000000000_0000000000000000_14def9dea2f79cd6_5812631a5cf5d3ed

  const GROUP_ORDER_LOW: seq<byte> := [
    0xed, 0xd3, 0xf5, 0x5c, 0x1a, 0x63, 0x12, 0x58, 0xd6, 0x9c, 0xf7, 0xa2, 0xde, 0xf9, 0xde, 0x14
  ]

  const GROUP_ORDER_HIGH: seq<byte> := [
    0x00, 0x00, 0x00, 0x00, 0x00, 0x00, 0x00, 0x00, 0x00, 0x00, 0x00, 0x00, 0x00, 0x00, 0x00, 0x10
  ]

  const GROUP_ORDER: seq<byte> := GROUP_ORDER_LOW + GROUP_ORDER_HIGH

  lemma {:induction false} ValueConcat(a: seq<byte>, b: seq<byte>)
    ensures Value(a + b) == Value(a) + Pow256(|a|) * Value(b)
  {
    if a == [] {
      assert a + b == b;
    } else {
      assert (a + b)[1..] == a[1..] + b;
      ValueConcat(a[1..], b);
      assert 0x100 * (Pow256(|a| - 1) * Value(b)) == (0x100 * Pow256(|a| - 1)) * Value(b);
    }
  }

  lemma ValueOfWord(s: seq<byte>)
    requires |s| == 4
    ensures Value(s) == Word(s, 0)
  {
    assert s[1..][1..] == s[2..] && s[2..][1..] == s[3..] && s[3..][1..] == [];
    assert Value(s[3..]) == s[3];
    assert Value(s[2..]) == s[2] as int + 0x100 * Value(s[3..]);
    assert Value(s[1..]) == s[1] as int + 0x100 * Value(s[2..]);
  }

  lemma ValueByWord(s: seq<byte>, i: nat)
    requires i + 4 <= |s|
    ensures Value(s[i..]) == Word(s, i) + 0x1_0000_0000 * Value(s[i + 4..])
  {
    assert s[i..] == s[i..i + 4] + s[i + 4..];
    ValueConcat(s[i..i + 4], s[i + 4..]);
    ValueOfWord(s[i..i + 4]);
    assert Pow256(4) == 0x1_0000_0000;
  }

  lemma FourWords(s: seq<byte>)
    requires |s| == 16
    ensures Value(s) ==
            Word(s, 0) + 0x1_0000_0000 * (Word(s, 4) + 0x1_0000_0000 * (Word(s, 8) + 0x1_0000_0000 * Word(s, 12)))
  {
    ValueByWord(s, 12);
    ValueByWord(s, 8);
    ValueByWord(s, 4);
    ValueByWord(s, 0);
    assert s[16..] == [] && s[0..] == s;
  }

  lemma OrderLowWords()
    ensures Word(GROUP_ORDER_LOW, 0) == 0x5cf5d3ed && Word(GROUP_ORDER_LOW, 4) == 0x5812631a
    ensures Word(GROUP_ORDER_LOW, 8) == 0xa2f79cd6 && Word(GROUP_ORDER_LOW, 12) == 0x14def9de
  {
  }

  lemma OrderLow()
    ensures Value(GROUP_ORDER_LOW) == 0x14def9dea2f79cd6_5812631a5cf5d3ed
  {
    OrderLowWords();
    FourGivenWords(GROUP_ORDER_LOW, 0x5cf5d3ed, 0x5812631a, 0xa2f79cd6, 0x14def9de);
  }

  lemma FourGivenWords(s: seq<byte>, a: u32, b: u32, c: u32, d: u32)
    requires |s| == 16 && Word(s, 0) == a && Word(s, 4) == b && Word(s, 8) == c && Word(s, 12) == d
    ensures Value(s) == a + 0x1_0000_0000 * (b + 0x1_0000_0000 * (c + 0x1_0000_0000 * d))
  {
    FourWords(s);
  }

  lemma OrderHigh()
    ensures Value(GROUP_ORDER_HIGH) == 0x1000000000000000_0000000000000000
  {
    FourGivenWords(GROUP_ORDER_HIGH, 0, 0, 0, 0x10000000);
  }

  lemma Pow256Of16()
    ensures Pow256(16) == 0x1_0000000000000000_0000000000000000
  {
    assert Pow256(4) == 0x1_0000_0000;
    Pow256Sum(4, 4);
    Pow256Sum(8, 8);
  }

  lemma OrderValue()
    ensures Value(GROUP_ORDER) == L
  {
    OrderLow();
    OrderHigh();
    Pow256Of16();
    ValueConcat(GROUP_ORDER_LOW, GROUP_ORDER_HIGH);
  }

  // ---- Clearing the cofactor bits ----

  /** The multiple of the order that makes a value divisible by eight: the order is 5 modulo 8, and 5 * 3 + 1 is 0. */
  function Padding(v: nat): nat {
    3 * v % 8
  }

  /** The one multiple of eight among v, v + L, ..., v + 7L. */
  function Cleared(v: nat): nat {
    v + Padding(v) * L
  }

  lemma ModEight(a: nat, z: nat)
    ensures (a + 8 * z) % 8 == a % 8
  {
  }

  lemma PaddingModEight(v: nat, k: nat)
    ensures (v + k * L) % 8 == (v % 8 + 5 * k) % 8
  {
    var eighth := L / 8;
    assert L == 5 + 8 * eighth;
    assert k * L == 5 * k + 8 * (k * eighth);
    assert v + k * L == (v % 8 + 5 * k) + 8 * (v / 8 + k * eighth);
    ModEight(v % 8 + 5 * k, v / 8 + k * eighth);
  }

  lemma PaddingModOrder(v: nat, k: nat)
    ensures (v + k * L) % L == v % L
  {
    var q := v / L;
    assert v + k * L == v % L + (q + k) * L;
    ModuloOf(v + k * L, v % L, q + k, L);
  }

  /** Only one of eight multiples will do. */
  lemma PaddingUnique(r: nat, k: nat)
    requires r < 8 && k < 8
    ensures (r + 5 * k) % 8 == 0 <==> k == 3 * r % 8
  {
  }

  /** The padded value is divisible by eight, still the same modulo the order, and small if the value was reduced. */
  lemma ClearedProperties(v: nat)
    ensures Cleared(v) % 8 == 0 && Cleared(v) % L == v % L
    ensures v < L ==> Cleared(v) < 8 * L < TWO_256
    ensures forall k: nat | k < 8 :: (v + k * L) % 8 == 0 <==> k == Padding(v)
  {
    ModEight(3 * (v % 8), 3 * (v / 8));
    assert 3 * v == 3 * (v % 8) + 8 * (3 * (v / 8));
    forall k: nat | k < 8 ensures (v + k * L) % 8 == 0 <==> k == Padding(v) {
      PaddingModEight(v, k);
      PaddingUnique(v % 8, k);
    }
    PaddingModOrder(v, Padding(v));
  }

  lemma BitOfSum(x: nat, z: nat, weight: nat)
    requires weight in {1, 2, 4}
    ensures (x + 0x100 * z) / weight % 2 == x / weight % 2
  {
    if weight == 1 {
    } else if weight == 2 {
      assert (x + 0x100 * z) / 2 == x / 2 + 2 * (0x40 * z);
    } else {
      assert (x + 0x100 * z) / 4 == x / 4 + 2 * (0x20 * z);
    }
  }

  /** The low bits of a number are in its lowest byte. */
  lemma LowBit(s: seq<byte>, whole: nat, weight: nat)
    requires |s| == 32 && Value(s) == whole % TWO_256 && weight in {1, 2, 4}
    ensures s[0] as int / weight % 2 == whole / weight % 2
  {
    var q := whole / TWO_256;
    var high := Value(s[1..]) + TWO_256 / 0x100 * q;
    assert whole == whole % TWO_256 + TWO_256 * q;
    assert whole == s[0] as int + 0x100 * high;
    BitOfSum(s[0] as int, high, weight);
  }

  /** Adding an odd multiple of the weight clears the bit at that weight. */
  lemma BitCleared(x: nat, weight: nat, odd: nat)
    requires weight in {1, 2, 4} && x % weight == 0 && x / weight % 2 == 1 && odd % 2 == 1
    ensures (x + weight * odd) % (2 * weight) == 0
  {
    var z, m := x / weight / 2, odd / 2;
    Halves(x / weight);
    Halves(odd);
    Parts(x, weight);
    OddSum(weight, z, m);
    ModuloOf(x + weight * odd, 0, z + m + 1, 2 * weight);
  }

  lemma Halves(y: nat)
    requires y % 2 == 1
    ensures y == 2 * (y / 2) + 1
  {
  }

  lemma Parts(x: nat, weight: nat)
    requires weight > 0 && x % weight == 0
    ensures x == weight * (x / weight)
  {
  }

  lemma OddSum(weight: nat, z: nat, m: nat)
    ensures weight * (2 * z + 1) + weight * (2 * m + 1) == (z + m + 1) * (2 * weight)
  {
  }

  lemma BitClear(x: nat, weight: nat)
    requires weight in {1, 2, 4} && x % weight == 0 && x / weight % 2 == 0
    ensures x % (2 * weight) == 0
  {
  }

  lemma AddWraps(a: nat, b: nat)
    ensures (a % TWO_256 + b) % TWO_256 == (a + b) % TWO_256
  {
    var q, r := (a % TWO_256 + b) / TWO_256, (a % TWO_256 + b) % TWO_256;
    assert a + b == r + (q + a / TWO_256) * TWO_256;
    ModuloOf(a + b, r, q + a / TWO_256, TWO_256);
  }

  /** `conditional_select`, byte by byte. */
  method SelectInto(value: array<byte>, candidate: array<byte>, choice: bool)
    requires value.Length == 32 && candidate.Length == 32 && value != candidate
    modifies value
    ensures value[..] == if choice then candidate[..] else old(value[..])
  {
    ghost var was := value[..];
    for i := 0 to 32
      invariant value[..i] == (if choice then candidate[..i] else was[..i])
      invariant value[i..] == was[i..]
    {
      assert value[i] == value[i..][0] == was[i..][0];
      value[i] := if choice then candidate[i] else value[i];
    }
    assert value[..32] == value[..] && candidate[..32] == candidate[..] && was[..32] == was;
  }

  method OrderBytes() returns (order: array<byte>)
    ensures fresh(order) && order.Length == 32 && Value(order[..]) == L
  {
    order := new byte[32](i requires 0 <= i < 32 => GROUP_ORDER[i]);
    assert order[..] == GROUP_ORDER;
    OrderValue();
  }

  /** `v` with some multiple of the order below `weight` added is what the bytes hold, and divisible by `weight`. */
  ghost predicate Padded(bytes: seq<byte>, v: nat, k: nat, weight: nat)
    requires weight > 0
  {
    k < weight && Value(bytes) == (v + k * L) % TWO_256 && (v + k * L) % weight == 0
  }

  /** One round of the loop: the bit at `weight` is cleared by adding the order at that weight, or is clear. */
  lemma Round(v: nat, k: nat, weight: nat, before: seq<byte>, order: seq<byte>, sum: seq<byte>, choice: nat)
    requires weight in {1, 2, 4} && |before| == 32 && Padded(before, v, k, weight)
    requires Value(order) == weight * L && Value(sum) == (Value(before) + Value(order)) % TWO_256
    requires choice == before[0] as int / weight % 2
    ensures if choice == 1 then Padded(sum, v, k + weight, 2 * weight) else Padded(before, v, k, 2 * weight)
  {
    var whole := v + k * L;
    LowBit(before, whole, weight);
    if choice == 1 {
      BitCleared(whole, weight, L);
      AddWraps(whole, weight * L);
      assert v + (k + weight) * L == whole + weight * L;
    } else {
      BitClear(whole, weight);
    }
  }

  lemma Doubled(order: seq<byte>, sum: seq<byte>, weight: nat)
    requires weight in {1, 2, 4} && Value(order) == weight * L && Value(sum) == (Value(order) + Value(order)) % TWO_256
    ensures Value(sum) == 2 * weight * L
  {
  }

  lemma PaddedEnough(bytes: seq<byte>, v: nat, k: nat)
    requires Padded(bytes, v, k, 8)
    ensures Value(bytes) == Cleared(v) % TWO_256 && (v < L ==> Value(bytes) == Cleared(v))
  {
    ClearedProperties(v);
  }

  /** One round of the loop below: adds the order, so far doubled, if the bit at its weight is set. */
  method ClearBit(value: array<byte>, order: array<byte>, ghost v: nat, ghost k: nat, weight: nat)
    returns (ghost next: nat)
    requires value.Length == 32 && order.Length == 32 && value != order && weight in {1, 2, 4}
    requires Value(order[..]) == weight * L && Padded(value[..], v, k, weight)
    modifies value
    ensures Padded(value[..], v, next, 2 * weight)
  {
    var choice := value[0] as int / weight % 2;
    var sum := AddLe(value, order);
    Round(v, k, weight, value[..], order[..], sum[..], choice);
    SelectInto(value, sum, choice == 1);
    next := if choice == 1 then k + weight else k;
  }

  /** Adds the order, doubled bit by bit, wherever a low bit is set: a multiple of eight, modulo 2^256. */
  method ClearCofactorBits(value: array<byte>)
    requires value.Length == 32
    modifies value
    ensures Value(value[..]) == Cleared(old(Value(value[..]))) % TWO_256
    ensures old(Value(value[..])) < L ==> Value(value[..]) == Cleared(old(Value(value[..])))
  {
    ghost var v := Value(value[..]);
    ghost var k: nat := 0;
    var order := OrderBytes();
    ValueBound(value[..]);
    Pow256Of32();
    var weight := 1;
    for bit := 0 to 3
      invariant fresh(order) && order.Length == 32
      invariant weight == if bit == 0 then 1 else if bit == 1 then 2 else if bit == 2 then 4 else 8
      invariant Value(order[..]) == weight * L
      invariant Padded(value[..], v, k, weight)
    {
      k := ClearBit(value, order, v, k, weight);
      var doubled := AddLe(order, order);
      Doubled(order[..], doubled[..], weight);
      order := doubled;
      weight := 2 * weight;
    }
    PaddedEnough(value[..], v, k);
  }
}
