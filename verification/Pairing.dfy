/**
 The cipher of the wireless pairing exchange (adb_client/src/wireless.rs:289-327, 379-383).  The authenticated cipher
 is a pair of functions of a nonce; what is modelled is how the two sides count messages.
 */
module Pairing {
  import opened Bytes

  const U64_MAX: u64 := 0xFFFF_FFFF_FFFF_FFFF

  /** A cipher under one key: what is sealed under a nonce opens under that nonce. */
  datatype Aead = Aead(seal: (seq<byte>, seq<byte>) -> seq<byte>, unseal: (seq<byte>, seq<byte>) -> Option<seq<byte>>)

  ghost predicate OpensWhatItSeals(a: Aead) {
    forall nonce, text :: a.unseal(nonce, a.seal(nonce, text)) == Some(text)
  }

  /** The sequence number in the first eight of twelve bytes. */
  function Nonce(sequence: u64): (r: seq<byte>)
    ensures |r| == 12
  {
    Le64(sequence) + [0, 0, 0, 0]
  }

  /** A nonce is the sequence number in its first eight bytes, lowest first, and four zeros. */
  lemma NonceTells(sequence: u64)
    ensures LongWord(Nonce(sequence), 0) == sequence && Nonce(sequence)[8..] == [0, 0, 0, 0]
  {
    WordOfLe32(sequence % 0x1_0000_0000);
    WordOfLe32(sequence / 0x1_0000_0000);
    var n := Nonce(sequence);
    assert Word(n, 0) == Word(Le32(sequence % 0x1_0000_0000), 0);
    assert Word(n, 4) == Word(Le32(sequence / 0x1_0000_0000), 0);
  }

  /** No two messages of one side share a nonce. */
  lemma NoncesDiffer(a: u64, b: u64)
    requires a != b
    ensures Nonce(a) != Nonce(b)
  {
    NonceTells(a);
    NonceTells(b);
  }

  class PairingCipher {
    const cipher: Aead
    var encryptSequence: u64
    var decryptSequence: u64

    constructor (cipher: Aead)
      ensures this.cipher == cipher && encryptSequence == 0 && decryptSequence == 0
    {
      this.cipher := cipher;
      encryptSequence, decryptSequence := 0, 0;
    }

    /** The last sequence number is never used: counting past it is an error, and stays one. */
    method Encrypt(plaintext: seq<byte>) returns (r: Option<seq<byte>>)
      modifies `encryptSequence
      ensures if old(encryptSequence) == U64_MAX then r == None && encryptSequence == U64_MAX
              else
                && r == Some(cipher.seal(Nonce(old(encryptSequence)), plaintext))
                && encryptSequence == old(encryptSequence) + 1
    {
      var nonce := Nonce(encryptSequence);
      if encryptSequence == U64_MAX {
        return None;
      }
      encryptSequence := encryptSequence + 1;
      return Some(cipher.seal(nonce, plaintext));
    }

    /** A message that is rejected is counted all the same. */
    method Decrypt(ciphertext: seq<byte>) returns (r: Option<seq<byte>>)
      modifies `decryptSequence
      ensures if old(decryptSequence) == U64_MAX then r == None && decryptSequence == U64_MAX
              else
                && r == cipher.unseal(Nonce(old(decryptSequence)), ciphertext)
                && decryptSequence == old(decryptSequence) + 1
    {
      var nonce := Nonce(decryptSequence);
      if decryptSequence == U64_MAX {
        return None;
      }
      decryptSequence := decryptSequence + 1;
      return cipher.unseal(nonce, ciphertext);
    }
  }

  /** What one side sends for messages encrypted one after the other, for as long as the numbers last. */
  function EncryptAll(a: Aead, sequence: u64, messages: seq<seq<byte>>): (r: seq<seq<byte>>)
    ensures |r| == Min(|messages|, U64_MAX - sequence)
    decreases |messages|
  {
    if messages == [] || sequence == U64_MAX then []
    else [a.seal(Nonce(sequence), messages[0])] + EncryptAll(a, sequence + 1, messages[1..])
  }

  /** The number behind a number; the last one stays. */
  function Later(sequence: u64): u64 {
    if sequence == U64_MAX then sequence else sequence + 1
  }

  /** What the other makes of them; under the last number, nothing. */
  function DecryptAll(a: Aead, sequence: u64, received: seq<seq<byte>>): (r: seq<Option<seq<byte>>>)
    ensures |r| == |received|
    decreases |received|
  {
    if received == [] then []
    else [Opened(a, sequence, received[0])] + DecryptAll(a, Later(sequence), received[1..])
  }

  function Opened(a: Aead, sequence: u64, ciphertext: seq<byte>): Option<seq<byte>> {
    if sequence == U64_MAX then None else a.unseal(Nonce(sequence), ciphertext)
  }

  lemma DecryptOne(a: Aead, sequence: u64, received: seq<seq<byte>>, before: seq<Option<seq<byte>>>)
    requires received != []
    ensures before + DecryptAll(a, sequence, received) ==
            before + [Opened(a, sequence, received[0])] + DecryptAll(a, Later(sequence), received[1..])
  {
    Regrouped(before, [Opened(a, sequence, received[0])], DecryptAll(a, Later(sequence), received[1..]));
  }

  lemma EncryptOne(a: Aead, sequence: u64, messages: seq<seq<byte>>, before: seq<seq<byte>>)
    requires messages != [] && sequence < U64_MAX
    ensures before + EncryptAll(a, sequence, messages) ==
            before + [a.seal(Nonce(sequence), messages[0])] + EncryptAll(a, sequence + 1, messages[1..])
  {
    Regrouped(before, [a.seal(Nonce(sequence), messages[0])], EncryptAll(a, sequence + 1, messages[1..]));
  }

  /**
   Encrypting one message after the other is `EncryptAll`; it fails when the numbers run out, after having sent some.
   */
  method SendAll(c: PairingCipher, messages: seq<seq<byte>>) returns (sent: seq<seq<byte>>, ok: bool)
    modifies c`encryptSequence
    ensures sent == EncryptAll(c.cipher, old(c.encryptSequence), messages)
    ensures ok <==> |sent| == |messages|
  {
    ghost var all := EncryptAll(c.cipher, c.encryptSequence, messages);
    sent, ok := [], true;
    var left := messages;
    while left != [] && ok
      invariant all == sent + EncryptAll(c.cipher, c.encryptSequence, left)
      invariant |sent| + |left| == |messages|
      invariant !ok ==> left != [] && c.encryptSequence == U64_MAX
      decreases |left|, ok
    {
      ghost var sequence := c.encryptSequence;
      var r := c.Encrypt(left[0]);
      if r.None? {
        ok := false;
      } else {
        EncryptOne(c.cipher, sequence, left, sent);
        sent, left := sent + [r.value], left[1..];
      }
    }
  }

  /** Decrypting one message after the other is `DecryptAll`. */
  method ReceiveAll(c: PairingCipher, received: seq<seq<byte>>) returns (texts: seq<Option<seq<byte>>>)
    modifies c`decryptSequence
    ensures texts == DecryptAll(c.cipher, old(c.decryptSequence), received)
  {
    ghost var all := DecryptAll(c.cipher, c.decryptSequence, received);
    texts := [];
    var left := received;
    while left != []
      invariant all == texts + DecryptAll(c.cipher, c.decryptSequence, left)
      decreases |left|
    {
      DecryptOne(c.cipher, c.decryptSequence, left, texts);
      var r := c.Decrypt(left[0]);
      texts, left := texts + [r], left[1..];
    }
  }

  /** Two ciphers under one key: what one sends in turn the other reads in turn. */
  method Exchange(cipher: Aead, messages: seq<seq<byte>>) returns (texts: seq<Option<seq<byte>>>)
    requires OpensWhatItSeals(cipher) && |messages| <= U64_MAX
    ensures |texts| == |messages| && forall i | 0 <= i < |messages| :: texts[i] == Some(messages[i])
  {
    var ours := new PairingCipher(cipher);
    var theirs := new PairingCipher(cipher);
    var sent, ok := SendAll(ours, messages);
    texts := ReceiveAll(theirs, sent);
    StepsTogether(cipher, 0, messages, sent);
  }

  /**
   The two sides stay in step: every message that arrives as it was sent is understood, even behind messages that were
   altered on the way and rejected.
   */
  lemma {:induction false} StepsTogether(a: Aead, sequence: u64, messages: seq<seq<byte>>, received: seq<seq<byte>>)
    requires OpensWhatItSeals(a) && sequence + |messages| <= U64_MAX && |received| == |messages|
    ensures forall i | 0 <= i < |messages| && received[i] == EncryptAll(a, sequence, messages)[i] ::
      DecryptAll(a, sequence, received)[i] == Some(messages[i])
    decreases |messages|
  {
    if messages != [] {
      StepsTogether(a, sequence + 1, messages[1..], received[1..]);
      var sent := EncryptAll(a, sequence, messages);
      forall i | 0 <= i < |messages| && received[i] == sent[i]
        ensures DecryptAll(a, sequence, received)[i] == Some(messages[i])
      {
        if i > 0 {
          assert sent[i] == EncryptAll(a, sequence + 1, messages[1..])[i - 1];
          assert received[1..][i - 1] == received[i] && messages[1..][i - 1] == messages[i];
        }
      }
    }
  }

  lemma {:induction false} SealedUnder(a: Aead, sequence: u64, messages: seq<seq<byte>>, i: nat)
    requires i < |EncryptAll(a, sequence, messages)|
    ensures sequence + i < U64_MAX && EncryptAll(a, sequence, messages)[i] == a.seal(Nonce(sequence + i), messages[i])
    decreases i
  {
    if i > 0 {
      SealedUnder(a, sequence + 1, messages[1..], i - 1);
    }
  }

  /** Any two messages of a run are sealed under different nonces. */
  lemma SealedApart(a: Aead, sequence: u64, messages: seq<seq<byte>>, i: nat, j: nat)
    requires i < j < |EncryptAll(a, sequence, messages)|
    ensures var sent := EncryptAll(a, sequence, messages); var m, n := Nonce(sequence + i), Nonce(sequence + j);
            m != n && sent[i] == a.seal(m, messages[i]) && sent[j] == a.seal(n, messages[j])
  {
    SealedUnder(a, sequence, messages, i);
    SealedUnder(a, sequence, messages, j);
    NoncesDiffer(sequence + i, sequence + j);
  }
}
