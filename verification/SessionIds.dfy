/**
 Session identifiers of the one-reader dispatcher (adb_client/src/message_devices/transport_dispatcher.rs:245-259):
 a cursor that walks the non-zero 32-bit numbers and skips those in use.
 */
module SessionIds {
  import opened Bytes

  /** How many identifiers there are: all but zero. */
  const IDS: nat := 0xFFFF_FFFF

  /** How many of them one allocation tries. */
  const TRIES: nat := 0xFFFF_FFFE

  /** `wrapping_add(1).max(1)`. */
  function Advanced(id: u32): u32 {
    if id == U32_MAX then 1 else id + 1
  }

  /** The k-th identifier the cursor comes to. */
  function Candidate(start: u32, k: nat): u32 {
    if k == 0 then start else Advanced(Candidate(start, k - 1))
  }

  predicate Free(live: set<u32>, id: u32) {
    id != 0 && id !in live
  }

  /** The first free identifier from the cursor on, among those tried, and the cursor behind the last one tried. */
  ghost predicate Allocates(live: set<u32>, start: u32, r: Option<u32>, after: u32) {
    match r
    case Some(id) =>
      exists k: nat :: k < TRIES && Candidate(start, k) == id && Free(live, id) && after == Advanced(id) &&
        forall j: nat | j < k :: !Free(live, Candidate(start, j))
    case None =>
      && after == Candidate(start, TRIES)
      && forall j: nat | j < TRIES :: !Free(live, Candidate(start, j))
  }

  method AllocateLocalId(live: set<u32>, nextLocalId: u32) returns (r: Option<u32>, after: u32)
    ensures Allocates(live, nextLocalId, r, after)
  {
    after := nextLocalId;
    for i := 0 to TRIES
      invariant after == Candidate(nextLocalId, i)
      invariant forall j: nat | j < i :: !Free(live, Candidate(nextLocalId, j))
    {
      var candidate := after;
      after := Advanced(after);
      if candidate != 0 && candidate !in live {
        return Some(candidate), after;
      }
    }
    return None, after;
  }

  lemma {:induction false} CandidateClosed(start: u32, k: nat)
    requires start != 0
    ensures Candidate(start, k) == (start - 1 + k) % IDS + 1
  {
    if k > 0 {
      CandidateClosed(start, k - 1);
      var x := start - 1 + (k - 1);
      var q := x / IDS;
      assert x == q * IDS + x % IDS;
      if x % IDS == IDS - 1 {
        assert x + 1 == (q + 1) * IDS;
      } else {
        assert (x + 1) % IDS == x % IDS + 1;
      }
    }
  }

  /** The one identifier that is not tried. */
  function Untried(start: u32): u32 {
    if start <= 1 then U32_MAX else start - 1
  }

  /** How far the cursor is from an identifier. */
  function Distance(start: u32, id: u32): nat
    requires start != 0 && id != 0
  {
    if id >= start then id - start else id - start + IDS
  }

  /** The cursor comes to every non-zero identifier once in a cycle, and to the one just behind it last. */
  lemma CursorCycles(start: u32, id: u32)
    requires start != 0 && id != 0
    ensures forall k: nat | k < IDS :: Candidate(start, k) == id <==> k == Distance(start, id)
    ensures Candidate(start, IDS) == start
    ensures Distance(start, id) == TRIES <==> id == Untried(start)
  {
    forall k: nat | k < IDS ensures Candidate(start, k) == id <==> k == Distance(start, id) {
      CandidateClosed(start, k);
      WrapOnce(start - 1 + k);
    }
    CandidateClosed(start, IDS);
    WrapOnce(start - 1 + IDS);
  }

  lemma WrapOnce(x: nat)
    requires x < 2 * IDS
    ensures x % IDS == if x < IDS then x else x - IDS
  {
  }

  /** Allocation succeeds exactly when some free identifier is among those tried: all but the one behind the cursor. */
  lemma AllocationSucceeds(live: set<u32>, start: u32, r: Option<u32>, after: u32)
    requires start != 0 && Allocates(live, start, r, after)
    ensures r.Some? <==> exists id: u32 :: Free(live, id) && id != Untried(start)
    ensures r.Some? ==> Free(live, r.value)
    ensures after != 0
  {
    if r.Some? {
      var k: nat :| k < TRIES && Candidate(start, k) == r.value;
      CursorCycles(start, r.value);
      assert Free(live, r.value) && r.value != Untried(start);
    } else {
      forall id: u32 | Free(live, id) ensures id == Untried(start) {
        CursorCycles(start, id);
        assert Candidate(start, Distance(start, id)) == id;
      }
      CandidateClosed(start, TRIES);
    }
  }

  /** Two free identifiers are enough. */
  lemma TwoFreeSuffice(live: set<u32>, start: u32, r: Option<u32>, after: u32, a: u32, b: u32)
    requires start != 0 && Allocates(live, start, r, after)
    requires Free(live, a) && Free(live, b) && a != b
    ensures r.Some?
  {
    AllocationSucceeds(live, start, r, after);
    assert a != Untried(start) || b != Untried(start);
  }

  /** One is not: with everything in use but the identifier behind the cursor, that one is refused. */
  lemma LastOneRefused(live: set<u32>, start: u32, r: Option<u32>, after: u32)
    requires start != 0 && Allocates(live, start, r, after)
    requires forall id: u32 :: Free(live, id) <==> id == Untried(start)
    ensures r == None && Free(live, Untried(start))
  {
    AllocationSucceeds(live, start, r, after);
  }
}
