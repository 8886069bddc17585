/**
 `bounded_parallel_map` (adb_cli/src/compat.rs:34-66): workers that claim indices from a shared counter and send back
 pairs of index and output.  A worker does one atomic step at a time, and any worker may be the next one to move.
 */
module ParallelMap {
  import opened Bytes

  /** `Claimed` between taking an index and sending its output. */
  datatype Worker = Idle | Claimed(index: nat) | Returned

  datatype State<U> = State(next: nat, workers: seq<Worker>, sent: seq<(nat, U)>)

  function Start<U>(workerCount: nat): State<U> {
    State(0, seq(workerCount, _ => Idle), [])
  }

  /** The sequential map. */
  function Map<T, U>(items: seq<T>, operation: T -> U): seq<U> {
    seq(|items|, (i: nat) requires i < |items| => operation(items[i]))
  }

  /** One step of worker `w`: claim an index, or return when there is none; send the output of a claimed index. */
  function Moved<T, U>(s: State<U>, items: seq<T>, operation: T -> U, w: nat): State<U>
    requires w < |s.workers| && !s.workers[w].Returned?
    requires s.workers[w].Claimed? ==> s.workers[w].index < |items|
  {
    match s.workers[w]
    case Idle => State(s.next + 1, s.workers[w := if s.next < |items| then Claimed(s.next) else Returned], s.sent)
    case Claimed(i) => State(s.next, s.workers[w := Idle], s.sent + [(i, operation(items[i]))])
  }

  function Claims(workers: seq<Worker>): nat {
    if workers == [] then 0 else (if workers[0].Claimed? then 1 else 0) + Claims(workers[1..])
  }

  function Living(workers: seq<Worker>): nat {
    if workers == [] then 0 else (if workers[0].Returned? then 0 else 1) + Living(workers[1..])
  }

  lemma {:induction false} OneChanges(workers: seq<Worker>, w: nat, to: Worker)
    requires w < |workers|
    ensures Claims(workers[w := to]) == Claims(workers) - One(workers[w].Claimed?) + One(to.Claimed?)
    ensures Living(workers[w := to]) == Living(workers) - One(!workers[w].Returned?) + One(!to.Returned?)
    ensures Claims(workers) >= One(workers[w].Claimed?) && Living(workers) >= One(!workers[w].Returned?)
  {
    if w == 0 {
      assert workers[w := to][1..] == workers[1..];
    } else {
      assert workers[w := to][1..] == workers[1..][w - 1 := to];
      OneChanges(workers[1..], w - 1, to);
    }
  }

  predicate DistinctKeys<U>(pairs: seq<(nat, U)>) {
    forall i, j | 0 <= i < j < |pairs| :: pairs[i].0 != pairs[j].0
  }

  predicate Outputs<T, U(==)>(pairs: seq<(nat, U)>, items: seq<T>, operation: T -> U) {
    forall i | 0 <= i < |pairs| :: pairs[i].0 < |items| && pairs[i].1 == operation(items[pairs[i].0])
  }

  /** Every index is claimed by one worker at most, and what is claimed is in one worker's hands or sent. */
  predicate Inv<T, U(==)>(s: State<U>, items: seq<T>, operation: T -> U) {
    && (forall v | 0 <= v < |s.workers| && s.workers[v].Claimed? ::
          s.workers[v].index < s.next && s.workers[v].index < |items|)
    && (forall v, w | 0 <= v < w < |s.workers| && s.workers[v].Claimed? && s.workers[w].Claimed? ::
          s.workers[v].index != s.workers[w].index)
    && (forall v, i | 0 <= v < |s.workers| && s.workers[v].Claimed? && 0 <= i < |s.sent| ::
          s.workers[v].index != s.sent[i].0)
    && (forall i | 0 <= i < |s.sent| :: s.sent[i].0 < s.next)
    && DistinctKeys(s.sent) && Outputs(s.sent, items, operation)
    && |s.sent| + Claims(s.workers) == Min(s.next, |items|)
    && ((exists v :: 0 <= v < |s.workers| && s.workers[v].Returned?) ==> s.next > |items|)
  }

  lemma {:induction false} IdleWorkers(n: nat)
    ensures var ws := seq(n, _ => Idle); Claims(ws) == 0 && Living(ws) == n
  {
    if n > 0 {
      assert seq(n, _ => Idle)[1..] == seq(n - 1, _ => Idle);
      IdleWorkers(n - 1);
    }
  }

  lemma StartInv<T, U>(items: seq<T>, operation: T -> U, workerCount: nat)
    ensures Inv(Start<U>(workerCount), items, operation)
  {
    IdleWorkers(workerCount);
  }

  lemma ClaimKeeps<T, U>(s: State<U>, items: seq<T>, operation: T -> U, w: nat)
    requires Inv(s, items, operation) && w < |s.workers| && s.workers[w].Idle?
    ensures Inv(Moved(s, items, operation, w), items, operation)
  {
    OneChanges(s.workers, w, if s.next < |items| then Claimed(s.next) else Returned);
  }

  lemma SendKeeps<T, U>(s: State<U>, items: seq<T>, operation: T -> U, w: nat)
    requires Inv(s, items, operation) && w < |s.workers| && s.workers[w].Claimed?
    ensures Inv(Moved(s, items, operation, w), items, operation)
  {
    OneChanges(s.workers, w, Idle);
  }

  lemma MovedKeeps<T, U>(s: State<U>, items: seq<T>, operation: T -> U, w: nat)
    requires Inv(s, items, operation) && w < |s.workers| && !s.workers[w].Returned?
    ensures Inv(Moved(s, items, operation, w), items, operation)
  {
    if s.workers[w].Idle? {
      ClaimKeeps(s, items, operation, w);
    } else {
      SendKeeps(s, items, operation, w);
    }
  }

  /** What is still to be done gets smaller with every step. */
  function Work<U>(s: State<U>, count: nat): int {
    2 * (count - Min(s.next, count)) + Claims(s.workers) + Living(s.workers)
  }

  lemma MovedProgress<T, U>(s: State<U>, items: seq<T>, operation: T -> U, w: nat)
    requires Inv(s, items, operation) && w < |s.workers| && !s.workers[w].Returned?
    ensures 0 <= Work(Moved(s, items, operation, w), |items|) < Work(s, |items|)
    ensures Claims(s.workers) <= |s.workers|
  {
    var t := Moved(s, items, operation, w);
    OneChanges(s.workers, w, t.workers[w]);
    ClaimsBounded(s.workers);
  }

  /** No more operations are running than there are workers. */
  lemma {:induction false} ClaimsBounded(workers: seq<Worker>)
    ensures Claims(workers) <= Living(workers) <= |workers|
  {
    if workers != [] {
      ClaimsBounded(workers[1..]);
    }
  }

  lemma {:induction false} NoneLiving(workers: seq<Worker>)
    requires forall v | 0 <= v < |workers| :: workers[v].Returned?
    ensures Claims(workers) == 0
  {
    if workers != [] {
      NoneLiving(workers[1..]);
    }
  }

  // ---- Sorting ----

  predicate Sorted<U>(pairs: seq<(nat, U)>) {
    forall i, j | 0 <= i < j < |pairs| :: pairs[i].0 <= pairs[j].0
  }

  lemma {:induction false} CountOnce<U>(pairs: seq<(nat, U)>, p: (nat, U))
    requires DistinctKeys(pairs)
    ensures multiset(pairs)[p] <= 1
  {
    if pairs != [] {
      var last := pairs[|pairs| - 1];
      assert pairs == pairs[..|pairs| - 1] + [last];
      CountOnce(pairs[..|pairs| - 1], p);
      if last == p {
        assert p !in pairs[..|pairs| - 1];
      }
    }
  }

  lemma CountTwice<U>(pairs: seq<(nat, U)>, i: nat, j: nat)
    requires i < j < |pairs| && pairs[i] == pairs[j]
    ensures multiset(pairs)[pairs[i]] >= 2
  {
    assert pairs == pairs[..j] + [pairs[j]] + pairs[j + 1..];
    assert pairs[..j][i] in multiset(pairs[..j]);
  }

  /** Rearranging keeps the outputs right and the keys distinct. */
  lemma Rearranged<T, U>(sent: seq<(nat, U)>, sorted: seq<(nat, U)>, items: seq<T>, operation: T -> U)
    requires DistinctKeys(sent) && Outputs(sent, items, operation) && multiset(sorted) == multiset(sent)
    ensures |sorted| == |sent| && DistinctKeys(sorted) && Outputs(sorted, items, operation)
  {
    assert |multiset(sorted)| == |multiset(sent)|;
    forall i | 0 <= i < |sorted| ensures sorted[i].0 < |items| && sorted[i].1 == operation(items[sorted[i].0]) {
      assert sorted[i] in multiset(sent);
      var k :| 0 <= k < |sent| && sent[k] == sorted[i];
    }
    forall i, j | 0 <= i < j < |sorted| ensures sorted[i].0 != sorted[j].0 {
      if sorted[i].0 == sorted[j].0 {
        assert sorted[i] == sorted[j];
        CountTwice(sorted, i, j);
        CountOnce(sent, sorted[i]);
      }
    }
  }

  /** Distinct keys below their number, in order, are the positions. */
  lemma {:induction false} KeysArePositions<U>(sorted: seq<(nat, U)>, n: nat)
    requires Sorted(sorted) && DistinctKeys(sorted) && |sorted| <= n
    requires forall i | 0 <= i < |sorted| :: sorted[i].0 < n
    ensures forall i | 0 <= i < |sorted| :: i <= sorted[i].0 <= n - |sorted| + i
  {
    if sorted != [] {
      var m := |sorted| - 1;
      var init := sorted[..m];
      assert forall i | 0 <= i < m :: init[i] == sorted[i] && sorted[i].0 < sorted[m].0;
      if m <= sorted[m].0 {
        KeysArePositions(init, sorted[m].0);
      } else {
        KeysTooFew(init, sorted[m].0);
      }
    }
  }

  lemma {:induction false} KeysTooFew<U>(sorted: seq<(nat, U)>, n: nat)
    requires Sorted(sorted) && DistinctKeys(sorted) && |sorted| > n && (forall i | 0 <= i < |sorted| :: sorted[i].0 < n)
    ensures false
    decreases |sorted|
  {
    var m := |sorted| - 1;
    assert sorted[m].0 < n;
    KeysTooFew(sorted[..m], sorted[m].0);
  }

  /** Whatever the interleaving and whatever sorts the pairs, the outputs are those of the sequential map. */
  lemma AnyScheduleIsSequential<T, U>(s: State<U>, items: seq<T>, operation: T -> U, sorted: seq<(nat, U)>)
    requires Inv(s, items, operation) && s.workers != [] && (forall v | 0 <= v < |s.workers| :: s.workers[v].Returned?)
    requires Sorted(sorted) && multiset(sorted) == multiset(s.sent)
    ensures seq(|sorted|, (i: nat) requires i < |sorted| => sorted[i].1) == Map(items, operation)
  {
    NoneLiving(s.workers);
    assert s.workers[0].Returned?;
    Rearranged(s.sent, sorted, items, operation);
    KeysArePositions(sorted, |items|);
  }

  method Insert<U>(sorted: seq<(nat, U)>, p: (nat, U)) returns (r: seq<(nat, U)>)
    requires Sorted(sorted)
    ensures Sorted(r) && multiset(r) == multiset(sorted) + multiset{p}
  {
    var at := 0;
    while at < |sorted| && sorted[at].0 <= p.0
      invariant at <= |sorted|
      invariant forall i | 0 <= i < at :: sorted[i].0 <= p.0
    {
      at := at + 1;
    }
    InsertedAt(sorted, p, at);
    r := sorted[..at] + [p] + sorted[at..];
  }

  lemma InsertedAt<U>(sorted: seq<(nat, U)>, p: (nat, U), at: nat)
    requires Sorted(sorted) && at <= |sorted|
    requires (forall i | 0 <= i < at :: sorted[i].0 <= p.0) && (at < |sorted| ==> p.0 < sorted[at].0)
    ensures var r := sorted[..at] + [p] + sorted[at..]; Sorted(r) && multiset(r) == multiset(sorted) + multiset{p}
  {
    forall i, j | 0 <= i < j < |sorted| + 1
      ensures (sorted[..at] + [p] + sorted[at..])[i].0 <= (sorted[..at] + [p] + sorted[at..])[j].0
    {
      Ordered(sorted, p, at, i, j);
    }
    InsertedCounts(sorted[..at], p, sorted[at..]);
    assert sorted == sorted[..at] + sorted[at..];
  }

  lemma InsertedCounts<U>(before: seq<(nat, U)>, p: (nat, U), after: seq<(nat, U)>)
    ensures multiset(before + [p] + after) == multiset(before + after) + multiset{p}
  {
  }

  lemma Ordered<U>(sorted: seq<(nat, U)>, p: (nat, U), at: nat, i: nat, j: nat)
    requires Sorted(sorted) && at <= |sorted| && i < j <= |sorted|
    requires (forall k | 0 <= k < at :: sorted[k].0 <= p.0) && (at < |sorted| ==> p.0 < sorted[at].0)
    ensures (sorted[..at] + [p] + sorted[at..])[i].0 <= (sorted[..at] + [p] + sorted[at..])[j].0
  {
    Place(sorted, p, at, i);
    Place(sorted, p, at, j);
  }

  lemma Place<U>(sorted: seq<(nat, U)>, p: (nat, U), at: nat, i: nat)
    requires at <= |sorted| && i <= |sorted|
    ensures (sorted[..at] + [p] + sorted[at..])[i] == if i < at then sorted[i] else if i == at then p else sorted[i - 1]
  {
  }

  /** `sort_unstable_by_key`, of which only this is used: the pairs in the order of their keys. */
  method SortByKey<U>(pairs: seq<(nat, U)>) returns (sorted: seq<(nat, U)>)
    ensures Sorted(sorted) && multiset(sorted) == multiset(pairs)
  {
    sorted := [];
    for k := 0 to |pairs|
      invariant Sorted(sorted) && multiset(sorted) == multiset(pairs[..k])
    {
      assert pairs[..k + 1] == pairs[..k] + [pairs[k]];
      sorted := Insert(sorted, pairs[k]);
    }
    assert pairs[..|pairs|] == pairs;
  }

  /**
   The parallel map is the sequential one, and never runs more than `min(max(limit, 1), |items|)` operations at once.
   */
  method BoundedParallelMap<T, U(==)>(items: seq<T>, limit: nat, operation: T -> U) returns (outputs: seq<U>, peak: nat)
    ensures outputs == Map(items, operation)
    ensures peak <= Min(if limit > 1 then limit else 1, |items|)
  {
    if items == [] {
      return [], 0;
    }
    var workerCount := Min(if limit > 1 then limit else 1, |items|);
    var s := Start<U>(workerCount);
    StartInv(items, operation, workerCount);
    peak := 0;
    while exists w :: 0 <= w < |s.workers| && !s.workers[w].Returned?
      invariant |s.workers| == workerCount && Inv(s, items, operation)
      invariant peak <= workerCount && Claims(s.workers) <= peak
      decreases Work(s, |items|)
    {
      var w :| 0 <= w < |s.workers| && !s.workers[w].Returned?;
      MovedKeeps(s, items, operation, w);
      MovedProgress(s, items, operation, w);
      s := Moved(s, items, operation, w);
      ClaimsBounded(s.workers);
      peak := if Claims(s.workers) > peak then Claims(s.workers) else peak;
    }
    var sorted := SortByKey(s.sent);
    AnyScheduleIsSequential(s, items, operation, sorted);
    outputs := seq(|sorted|, (i: nat) requires i < |sorted| => sorted[i].1);
  }
}
