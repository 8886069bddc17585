/**
 The SPAKE2 exchange of the pairing code (adb_client/src/wireless.rs:239-348) over an arbitrary abelian group.

 Random scalars, hashing and point compression are library code: scalars and points are parameters here.  `Times` is
 repeated addition; `MultiplyRaw` is the double-and-add loop over all 256 bits, proved to compute it.
 */
module Spake {
  import opened Bytes
  import opened Bignum

  datatype Group<!G> = Group(add: (G, G) -> G, identity: G, negate: G -> G)

  ghost predicate LawsAt<G>(g: Group<G>, a: G, b: G, c: G) {
    && g.add(g.add(a, b), c) == g.add(a, g.add(b, c))
    && g.add(a, b) == g.add(b, a)
    && g.add(a, g.identity) == a
    && g.add(a, g.negate(a)) == g.identity
  }

  ghost predicate Abelian<G(!new)>(g: Group<G>) {
    forall a, b, c :: LawsAt(g, a, b, c)
  }

  /** `n` times the point. */
  function Times<G>(g: Group<G>, n: nat, p: G): G {
    if n == 0 then g.identity else g.add(Times(g, n - 1, p), p)
  }

  lemma {:induction false} TimesSum<G(!new)>(g: Group<G>, m: nat, n: nat, p: G)
    requires Abelian(g)
    ensures Times(g, m + n, p) == g.add(Times(g, m, p), Times(g, n, p))
  {
    if n == 0 {
      assert LawsAt(g, Times(g, m, p), p, p);
    } else {
      TimesSum(g, m, n - 1, p);
      assert LawsAt(g, Times(g, m, p), Times(g, n - 1, p), p);
    }
  }

  lemma {:induction false} TimesProduct<G(!new)>(g: Group<G>, m: nat, n: nat, p: G)
    requires Abelian(g)
    ensures Times(g, m * n, p) == Times(g, m, Times(g, n, p))
  {
    if m > 0 {
      TimesProduct(g, m - 1, n, p);
      assert m * n == (m - 1) * n + n;
      TimesSum(g, (m - 1) * n, n, p);
    } else {
      assert m * n == 0;
    }
  }

  /** (a + b) + (c + d) == (a + c) + (b + d). */
  lemma Shuffle<G(!new)>(g: Group<G>, a: G, b: G, c: G, d: G)
    requires Abelian(g)
    ensures g.add(g.add(a, b), g.add(c, d)) == g.add(g.add(a, c), g.add(b, d))
  {
    assert LawsAt(g, a, b, g.add(c, d));
    assert LawsAt(g, b, c, d);
    assert LawsAt(g, c, b, d);
    assert LawsAt(g, a, c, g.add(b, d));
  }

  lemma {:induction false} TimesOfSum<G(!new)>(g: Group<G>, n: nat, p: G, q: G)
    requires Abelian(g)
    ensures Times(g, n, g.add(p, q)) == g.add(Times(g, n, p), Times(g, n, q))
  {
    if n == 0 {
      assert LawsAt(g, g.identity, g.identity, g.identity);
    } else {
      TimesOfSum(g, n - 1, p, q);
      Shuffle(g, Times(g, n - 1, p), Times(g, n - 1, q), p, q);
    }
  }

  lemma {:induction false} TimesOfIdentity<G(!new)>(g: Group<G>, n: nat)
    requires Abelian(g)
    ensures Times(g, n, g.identity) == g.identity
  {
    if n > 0 {
      TimesOfIdentity(g, n - 1);
      assert LawsAt(g, g.identity, g.identity, g.identity);
    }
  }

  function Bit(byte: nat, bit: nat): nat {
    byte / Pow2(bit) % 2
  }

  function Pow2(n: nat): (r: nat)
    ensures r > 0
  {
    if n == 0 then 1 else 2 * Pow2(n - 1)
  }

  lemma SplitProduct(b: nat, h: nat, p: nat)
    ensures (b + 2 * h) * p == b * p + h * (2 * p)
  {
  }

  lemma ModuloDouble(x: nat, p: nat)
    requires p > 0
    ensures x % (2 * p) == x % p + x / p % 2 * p
  {
    var q, r := x / p, x % p;
    assert x == q * p + r;
    SplitProduct(q % 2, q / 2, p);
    assert q == q % 2 + 2 * (q / 2);
    assert q % 2 * p < 2 * p - r by {
      if q % 2 == 1 {
        assert q % 2 * p == p;
      } else {
        assert q % 2 * p == 0;
      }
    }
    ModuloOf(x, r + q % 2 * p, q / 2, 2 * p);
  }

  /** After `bit` rounds: the multiple for the bits seen so far, and the one for the next. */
  ghost predicate Multiplied<G(!new)>(
      g: Group<G>, point: G, low: nat, weight: nat, byte: byte, bit: nat, result: G, multiple: G)
    requires Abelian(g)
  {
    && result == Times(g, low + weight * (byte as int % Pow2(bit)), point)
    && multiple == Times(g, weight * Pow2(bit), point)
  }

  /** The loop over the bits of one byte, whose place in the number is `weight`. */
  method MultiplyByte<G(!new)>(g: Group<G>, ghost point: G, byte: byte, ghost low: nat, ghost weight: nat, r: G, m: G)
    returns (result: G, multiple: G)
    requires Abelian(g)
    requires r == Times(g, low, point) && m == Times(g, weight, point)
    ensures result == Times(g, low + weight * byte as int, point)
    ensures multiple == Times(g, 0x100 * weight, point)
  {
    result, multiple := r, m;
    ByteStarts(g, point, low, weight, byte);
    for bit := 0 to 8
      invariant Multiplied(g, point, low, weight, byte, bit, result, multiple)
    {
      MultipliedRound(g, point, low, weight, byte, bit, result, multiple);
      var candidate := g.add(result, multiple);
      result := if Bit(byte as int, bit) == 1 then candidate else result;
      multiple := g.add(multiple, multiple);
    }
    ByteDone(g, point, low, weight, byte, result, multiple);
  }

  lemma MultipliedRound<G(!new)>(
      g: Group<G>, point: G, low: nat, weight: nat, byte: byte, bit: nat, result: G, multiple: G)
    requires Abelian(g) && Multiplied(g, point, low, weight, byte, bit, result, multiple)
    ensures Multiplied(g, point, low, weight, byte, bit + 1,
                       if Bit(byte as int, bit) == 1 then g.add(result, multiple) else result,
                       g.add(multiple, multiple))
  {
    BitStep(g, point, low, weight, byte as int, bit);
  }

  lemma ByteStarts<G(!new)>(g: Group<G>, point: G, low: nat, weight: nat, byte: byte)
    requires Abelian(g)
    ensures Multiplied(g, point, low, weight, byte, 0, Times(g, low, point), Times(g, weight, point))
  {
    ByteEnds(byte, low, weight);
  }

  lemma ByteDone<G(!new)>(g: Group<G>, point: G, low: nat, weight: nat, byte: byte, result: G, multiple: G)
    requires Abelian(g) && Multiplied(g, point, low, weight, byte, 8, result, multiple)
    ensures result == Times(g, low + weight * byte as int, point) && multiple == Times(g, 0x100 * weight, point)
  {
    ByteEnds(byte, low, weight);
  }

  lemma ByteEnds(byte: byte, low: nat, weight: nat)
    ensures low + weight * (byte as int % Pow2(0)) == low && weight * Pow2(0) == weight
    ensures low + weight * (byte as int % Pow2(8)) == low + weight * byte as int && weight * Pow2(8) == 0x100 * weight
  {
    assert Pow2(8) == 0x100;
    assert byte as int % 0x100 == byte as int;
    assert weight * 0 == 0;
  }

  /** The multiple of the point by the whole 256-bit little-endian number, by doubling and conditional adding. */
  method MultiplyRaw<G(!new)>(g: Group<G>, point: G, scalar: seq<byte>) returns (result: G)
    requires Abelian(g)
    requires |scalar| == 32
    ensures result == Times(g, Value(scalar), point)
  {
    result := g.identity;
    var multiple := point;
    TimesOne(g, point);
    for i := 0 to 32
      invariant result == Times(g, Value(scalar[..i]), point)
      invariant multiple == Times(g, Pow256(i), point)
    {
      result, multiple := MultiplyByte(g, point, scalar[i], Value(scalar[..i]), Pow256(i), result, multiple);
      ValuePrefix(scalar, i);
    }
    assert scalar[..32] == scalar;
  }

  lemma TimesOne<G(!new)>(g: Group<G>, p: G)
    requires Abelian(g)
    ensures Times(g, 1, p) == p && Times(g, 0, p) == g.identity
  {
    assert Times(g, 1, p) == g.add(Times(g, 0, p), p);
    assert LawsAt(g, g.identity, p, p) && LawsAt(g, p, p, p);
  }

  lemma BitStep<G(!new)>(g: Group<G>, point: G, low: nat, weight: nat, byte: nat, bit: nat)
    requires Abelian(g)
    ensures var before := low + weight * (byte % Pow2(bit));
            var after := low + weight * (byte % Pow2(bit + 1));
            var place := weight * Pow2(bit);
            && Times(g, after, point) ==
                 (if Bit(byte, bit) == 1 then g.add(Times(g, before, point), Times(g, place, point))
                  else Times(g, before, point))
            && Times(g, weight * Pow2(bit + 1), point) == g.add(Times(g, place, point), Times(g, place, point))
  {
    var place, part := weight * Pow2(bit), byte % Pow2(bit);
    ModuloDouble(byte, Pow2(bit));
    PlaceDoubles(weight, Pow2(bit), part);
    TimesSum(g, low + weight * part, place, point);
    TimesSum(g, place, place, point);
  }

  lemma PlaceDoubles(weight: nat, power: nat, part: nat)
    ensures weight * (part + 1 * power) == weight * part + weight * power
    ensures weight * (part + 0 * power) == weight * part
    ensures weight * (2 * power) == weight * power + weight * power
  {
  }

  // ---- The exchange ----

  function Minus<G>(g: Group<G>, p: G, q: G): G {
    g.add(p, g.negate(q))
  }

  /**
   The first half: the private scalar is shifted to a multiple of eight, the password scalar padded to one, and the
   public point masked with a multiple of `mask`.  Both scalars come reduced modulo the order.
   */
  method Start<G(!new)>(g: Group<G>, base: G, mask: G, privateScalar: array<byte>, passwordScalar: array<byte>)
    returns (message: G)
    requires Abelian(g)
    requires privateScalar.Length == 32 && passwordScalar.Length == 32 && privateScalar != passwordScalar
    requires Value(privateScalar[..]) < L && Value(passwordScalar[..]) < L
    modifies privateScalar, passwordScalar
    ensures Value(privateScalar[..]) == 8 * old(Value(privateScalar[..]))
    ensures Value(passwordScalar[..]) == Cleared(old(Value(passwordScalar[..])))
    ensures message == g.add(Times(g, Value(privateScalar[..]), base), Times(g, Value(passwordScalar[..]), mask))
  {
    ShiftLeftThree(privateScalar);
    ClearCofactorBits(passwordScalar);
    var public := MultiplyRaw(g, base, privateScalar[..]);
    var masking := MultiplyRaw(g, mask, passwordScalar[..]);
    message := g.add(public, masking);
  }

  /** The second half: unmask the peer's point and multiply it by the private scalar. */
  method Finish<G(!new)>(g: Group<G>, peerMask: G, privateScalar: seq<byte>, passwordScalar: seq<byte>, peerMasked: G)
    returns (shared: G)
    requires Abelian(g)
    requires |privateScalar| == 32 && |passwordScalar| == 32
    ensures shared ==
      Times(g, Value(privateScalar), Minus(g, peerMasked, Times(g, Value(passwordScalar), peerMask)))
  {
    var masking := MultiplyRaw(g, peerMask, passwordScalar);
    var peerPublic := Minus(g, peerMasked, masking);
    shared := MultiplyRaw(g, peerPublic, privateScalar);
  }

  function Masked<G>(g: Group<G>, base: G, mask: G, x: nat, w: nat): G {
    g.add(Times(g, x, base), Times(g, w, mask))
  }

  function Shared<G>(g: Group<G>, peerMask: G, x: nat, w: nat, peer: G): G {
    Times(g, x, Minus(g, peer, Times(g, w, peerMask)))
  }

  lemma Unmask<G(!new)>(g: Group<G>, p: G, q: G)
    requires Abelian(g)
    ensures Minus(g, g.add(p, q), q) == p
  {
    assert LawsAt(g, p, q, g.negate(q));
    assert LawsAt(g, q, q, q);
    assert LawsAt(g, p, p, p);
  }

  /** Unmasking what a peer with private scalar `y` and the same password sent gives `xy` times the base. */
  lemma SharedPoint<G(!new)>(g: Group<G>, base: G, peerMask: G, x: nat, y: nat, w: nat)
    requires Abelian(g)
    ensures Shared(g, peerMask, x, w, Masked(g, base, peerMask, y, w)) == Times(g, x * y, base)
  {
    Unmask(g, Times(g, y, base), Times(g, w, peerMask));
    TimesProduct(g, x, y, base);
  }

  /** A client and a mirrored peer that know the same password derive the same point, whatever their scalars. */
  lemma BothSidesAgree<G(!new)>(g: Group<G>, base: G, m: G, n: G, x: nat, y: nat, w: nat)
    requires Abelian(g)
    ensures Shared(g, n, x, w, Masked(g, base, n, y, w)) == Shared(g, m, y, w, Masked(g, base, m, x, w))
  {
    SharedPoint(g, base, n, x, y, w);
    SharedPoint(g, base, m, y, x, w);
    assert x * y == y * x;
  }

  /** A multiple of eight kills a point of order dividing eight. */
  lemma TorsionVanishes<G(!new)>(g: Group<G>, x: nat, p: G, t: G)
    requires Abelian(g)
    requires x % 8 == 0 && Times(g, 8, t) == g.identity
    ensures Times(g, x, g.add(p, t)) == Times(g, x, p)
  {
    assert x == x / 8 * 8;
    TimesOfSum(g, x, p, t);
    TimesProduct(g, x / 8, 8, t);
    TimesOfIdentity(g, x / 8);
    assert LawsAt(g, Times(g, x, p), p, p);
  }

  /** With the client's scalars a small-order component in the peer's message changes nothing in the shared point. */
  lemma SmallSubgroupIgnored<G(!new)>(g: Group<G>, peerMask: G, privateScalar: nat, w: nat, peer: G, t: G)
    requires Abelian(g)
    requires Times(g, 8, t) == g.identity
    ensures Shared(g, peerMask, 8 * privateScalar, w, g.add(peer, t)) == Shared(g, peerMask, 8 * privateScalar, w, peer)
  {
    var masking := g.negate(Times(g, w, peerMask));
    assert LawsAt(g, peer, t, masking);
    assert LawsAt(g, t, masking, t);
    assert LawsAt(g, peer, masking, t);
    assert g.add(g.add(peer, t), masking) == g.add(g.add(peer, masking), t);
    TorsionVanishes(g, 8 * privateScalar, g.add(peer, masking), t);
  }

  /** Likewise for a small-order component in a mask: the padded password scalar is a multiple of eight. */
  lemma MaskTorsionIgnored<G(!new)>(g: Group<G>, base: G, mask: G, x: nat, password: nat, t: G)
    requires Abelian(g)
    requires Times(g, 8, t) == g.identity
    ensures Masked(g, base, g.add(mask, t), x, Cleared(password)) == Masked(g, base, mask, x, Cleared(password))
  {
    ClearedProperties(password);
    TorsionVanishes(g, Cleared(password), mask, t);
  }

  /** For a mask in the prime-order subgroup the padding makes no difference to the multiple. */
  lemma PaddingKeepsMultiple<G(!new)>(g: Group<G>, mask: G, password: nat)
    requires Abelian(g)
    requires Times(g, L, mask) == g.identity
    ensures Times(g, Cleared(password), mask) == Times(g, password, mask)
  {
    TimesSum(g, password, Padding(password) * L, mask);
    TimesProduct(g, Padding(password), L, mask);
    TimesOfIdentity(g, Padding(password));
    assert LawsAt(g, Times(g, password, mask), mask, mask);
  }
}
