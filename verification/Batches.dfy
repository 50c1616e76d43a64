/** Consecutive batches of a sorted list, and how they relate to its priority tiers. */
module Batches {
  import opened Workloads

  // ----- the batches as lists -----

  function Flatten<T>(batches: seq<seq<T>>): seq<T> {
    if batches == [] then [] else batches[0] + Flatten(batches[1..])
  }

  function Chunks<T>(ws: seq<T>, n: nat): seq<seq<T>>
    requires n > 0
  {
    if ws == [] then []
    else if |ws| <= n then [ws]
    else [ws[..n]] + Chunks(ws[n..], n)
  }

  /** The effective limit: zero, or any non-positive number, means the whole list at once. */
  function Limit(maxConcurrency: int, count: nat): nat {
    if maxConcurrency <= 0 then count else maxConcurrency
  }

  function CeilDiv(m: nat, n: nat): nat
    requires n > 0
  {
    (m + n - 1) / n
  }

  lemma DivShift(m: nat, n: nat)
    requires n > 0
    ensures (m + n) / n == m / n + 1
  {
    var q, r := m / n, m % n;
    assert m + n == n * (q + 1) + r;
    DivUnique(m + n, n, q + 1, r);
  }

  lemma {:induction false} MulAtLeast(n: nat, k: int)
    requires k >= 1
    ensures n * k >= n
  {
    if k > 1 {
      MulAtLeast(n, k - 1);
      assert n * k == n * (k - 1) + n;
    }
  }

  lemma DivUnique(x: int, n: nat, q: int, r: int)
    requires n > 0 && 0 <= r < n && x == n * q + r
    ensures x / n == q
  {
    var q', r' := x / n, x % n;
    assert x == n * q' + r';
    if q > q' {
      assert n * (q - q') == n * q - n * q';
      MulAtLeast(n, q - q');
    } else if q < q' {
      assert n * (q' - q) == n * q' - n * q;
      MulAtLeast(n, q' - q);
    }
  }

  /** Batches partition the list in order, number ceil(count / n), and only the last may be short. */
  lemma {:induction false} ChunksPartition<T>(ws: seq<T>, n: nat)
    requires n > 0
    ensures Flatten(Chunks(ws, n)) == ws
    ensures |Chunks(ws, n)| == CeilDiv(|ws|, n)
    ensures forall b :: 0 <= b < |Chunks(ws, n)| ==> 0 < |Chunks(ws, n)[b]| <= n
    ensures forall b :: 0 <= b < |Chunks(ws, n)| - 1 ==> |Chunks(ws, n)[b]| == n
  {
    if ws == [] {
      DivUnique(n - 1, n, 0, n - 1);
    } else if |ws| <= n {
      assert Flatten([ws]) == ws + Flatten<T>([]);
      DivUnique(|ws| + n - 1, n, 1, |ws| - 1);
    } else {
      ChunksPartition(ws[n..], n);
      assert Chunks(ws, n)[1..] == Chunks(ws[n..], n);
      DivShift(|ws| - 1, n);
      assert |ws[n..]| + n - 1 == |ws| - 1;
      DivShift(|ws| - 1, n);
    }
  }

  /** Splits the sorted list for dispatch; the caller has returned already when it is empty. */
  method SplitBatches<T>(ws: seq<T>, maxConcurrency: int) returns (batches: seq<seq<T>>, total: nat)
    requires ws != []
    ensures Flatten(batches) == ws
    ensures |batches| == total == CeilDiv(|ws|, Limit(maxConcurrency, |ws|))
    ensures forall b :: 0 <= b < |batches| ==> 0 < |batches[b]| <= Limit(maxConcurrency, |ws|)
    ensures forall b :: 0 <= b < |batches| - 1 ==> |batches[b]| == Limit(maxConcurrency, |ws|)
  {
    var maxC := if maxConcurrency <= 0 then |ws| else maxConcurrency;
    total := CeilDiv(|ws|, maxC);
    batches := CollectBatches(ws, maxC);
    ChunksPartition(ws, maxC);
  }

  /** The dispatch loop: consecutive slices of `n`, the last one cut at the end of the list. */
  method CollectBatches<T>(ws: seq<T>, n: nat) returns (batches: seq<seq<T>>)
    requires n > 0
    ensures batches == Chunks(ws, n)
  {
    batches := [];
    var batchStart := 0;
    while batchStart < |ws|
      invariant 0 <= batchStart
      invariant batches + Chunks(Remaining(ws, batchStart), n) == Chunks(ws, n)
    {
      var end := if batchStart + n < |ws| then batchStart + n else |ws|;
      ChunksStep(ws, batchStart, n);
      batches := batches + [ws[batchStart..end]];
      batchStart := batchStart + n;
    }
  }

  function Remaining<T>(ws: seq<T>, from: nat): seq<T> {
    if from < |ws| then ws[from..] else []
  }

  lemma ChunksStep<T>(ws: seq<T>, from: nat, n: nat)
    requires n > 0 && from < |ws|
    ensures var end := if from + n < |ws| then from + n else |ws|;
      Chunks(ws[from..], n) == [ws[from..end]] + Chunks(Remaining(ws, from + n), n)
  {
    var rest := ws[from..];
    if |rest| > n {
      assert rest[..n] == ws[from..from + n] && rest[n..] == ws[from + n..];
    }
    assert from + n >= |ws| ==> ws[from..|ws|] == rest && [rest] + Chunks<T>([], n) == [rest];
    assert from + n == |ws| ==> Remaining(ws, from + n) == [];
  }

  // ----- priorities and batches -----

  /** Every batch holds a single priority tier. */
  predicate StrictTiers(batches: seq<seq<Workload>>) {
    forall b, i, j :: 0 <= b < |batches| && 0 <= i < |batches[b]| && 0 <= j < |batches[b]| ==>
      batches[b][i].priority == batches[b][j].priority
  }

  /** Index `i` begins a batch. */
  predicate Boundary(i: nat, n: nat)
    requires n > 0
    decreases i
  {
    i == 0 || (i >= n && Boundary(i - n, n))
  }

  /** The number of the batch that holds index `i`, and the index at which that batch begins. */
  function BatchOf(i: nat, n: nat): nat
    requires n > 0
  {
    if i < n then 0 else BatchOf(i - n, n) + 1
  }

  function BatchStart(i: nat, n: nat): (start: nat)
    requires n > 0
    ensures start <= i < start + n && Boundary(start, n)
    ensures start == i <==> Boundary(i, n)
  {
    if i < n then 0 else BatchStart(i - n, n) + n
  }

  /** In arithmetic: quotient and remainder, and boundaries are the multiples of `n`. */
  lemma {:induction false} BatchMeaning(i: nat, n: nat)
    requires n > 0
    ensures BatchOf(i, n) == i / n && i - BatchStart(i, n) == i % n
    ensures Boundary(i, n) <==> i % n == 0
  {
    var q, r := BatchOf(i, n), i - BatchStart(i, n);
    BatchProduct(i, n);
    DivUnique(i, n, q, r);
    assert i == n * (i / n) + i % n;
  }

  lemma {:induction false} BatchProduct(i: nat, n: nat)
    requires n > 0
    ensures BatchStart(i, n) == n * BatchOf(i, n)
  {
    if i >= n {
      BatchProduct(i - n, n);
      NextMultiple(n, BatchOf(i - n, n));
    }
  }

  lemma NextMultiple(n: nat, q: nat)
    ensures n * q + n == n * (q + 1)
  {}

  /** Element `i` of the list is in that batch, at that distance from its beginning. */
  lemma {:induction false} ElementInBatch<T>(ws: seq<T>, n: nat, i: nat)
    requires n > 0 && i < |ws|
    ensures var b, place := BatchOf(i, n), i - BatchStart(i, n);
      b < |Chunks(ws, n)| && place < |Chunks(ws, n)[b]| && Chunks(ws, n)[b][place] == ws[i]
    decreases i
  {
    if i >= n {
      ElementInBatch(ws[n..], n, i - n);
      assert Chunks(ws, n) == [ws[..n]] + Chunks(ws[n..], n);
    }
  }

  /** Element `i` is in batch `i / n`, at place `i % n`. */
  lemma {:induction false} ChunkAt<T>(ws: seq<T>, n: nat, i: nat)
    requires n > 0 && i < |ws|
    ensures var b := i / n;
      b < |Chunks(ws, n)| && i % n < |Chunks(ws, n)[b]| && Chunks(ws, n)[b][i % n] == ws[i]
  {
    ElementInBatch(ws, n, i);
    BatchMeaning(i, n);
  }

  /** Tiers change only where a batch begins. */
  predicate TiersAligned(ws: seq<Workload>, n: nat)
    requires n > 0
  {
    forall i :: 0 < i < |ws| && ws[i - 1].priority != ws[i].priority ==> Boundary(i, n)
  }

  lemma {:induction false} FlatPriority(ws: seq<Workload>)
    requires forall i :: 0 < i < |ws| ==> ws[i - 1].priority == ws[i].priority
    ensures forall i, j :: 0 <= i < |ws| && 0 <= j < |ws| ==> ws[i].priority == ws[j].priority
  {
    if |ws| > 1 {
      var n := |ws| - 1;
      var front := ws[..n];
      forall i | 0 < i < n ensures front[i - 1].priority == front[i].priority {
        assert ws[i - 1].priority == ws[i].priority;
      }
      FlatPriority(front);
      forall i | 0 <= i < n ensures ws[i].priority == ws[n].priority {
        assert ws[i] == front[i] && ws[n - 1] == front[n - 1] && front[i].priority == front[n - 1].priority;
      }
    }
  }

  lemma OneBatchTiers(ws: seq<Workload>, n: nat)
    requires 0 < |ws| <= n
    ensures StrictTiers([ws]) <==> TiersAligned(ws, n)
  {
    forall i | 0 < i < |ws| ensures !Boundary(i, n) {}
    if TiersAligned(ws, n) {
      FlatPriority(ws);
    }
    if StrictTiers([ws]) {
      assert forall i :: 0 < i < |ws| ==> [ws][0][i - 1].priority == [ws][0][i].priority;
    }
  }

  lemma PrependTiers(first: seq<Workload>, rest: seq<seq<Workload>>)
    ensures StrictTiers([first] + rest) <==> StrictTiers([first]) && StrictTiers(rest)
  {
    var all := [first] + rest;
    if StrictTiers(all) {
      forall i, j | 0 <= i < |first| && 0 <= j < |first| ensures first[i].priority == first[j].priority {
        assert all[0][i].priority == all[0][j].priority;
      }
      forall b, i, j | 0 <= b < |rest| && 0 <= i < |rest[b]| && 0 <= j < |rest[b]|
        ensures rest[b][i].priority == rest[b][j].priority
      {
        assert all[b + 1][i].priority == all[b + 1][j].priority;
      }
    }
    if StrictTiers([first]) && StrictTiers(rest) {
      forall b, i, j | 0 <= b < |all| && 0 <= i < |all[b]| && 0 <= j < |all[b]|
        ensures all[b][i].priority == all[b][j].priority
      {
        if b == 0 {
          assert [first][0][i].priority == [first][0][j].priority;
        } else {
          assert rest[b - 1][i].priority == rest[b - 1][j].priority;
        }
      }
    }
  }

  lemma SplitAligned(ws: seq<Workload>, n: nat)
    requires 0 < n < |ws|
    ensures TiersAligned(ws, n) <==> TiersAligned(ws[..n], n) && TiersAligned(ws[n..], n)
  {
    var first, rest := ws[..n], ws[n..];
    if TiersAligned(ws, n) {
      forall i | 0 < i < |rest| && rest[i - 1].priority != rest[i].priority ensures Boundary(i, n) {
        assert ws[i + n] == rest[i] && ws[i + n - 1] == rest[i - 1];
      }
    }
    if TiersAligned(first, n) && TiersAligned(rest, n) {
      forall i | 0 < i < |ws| && ws[i - 1].priority != ws[i].priority ensures Boundary(i, n) {
        if i < n {
          assert first[i - 1].priority != first[i].priority;
        } else {
          assert i > n ==> rest[i - n - 1].priority != rest[i - n].priority;
        }
      }
    }
  }

  /** Batches keep critical tiers strictly apart exactly when every tier starts on a batch boundary;
      otherwise some batch restarts two tiers concurrently. */
  lemma {:induction false} StrictTiersExactlyWhenAligned(ws: seq<Workload>, n: nat)
    requires n > 0
    ensures StrictTiers(Chunks(ws, n)) <==> TiersAligned(ws, n)
  {
    if 0 < |ws| <= n {
      OneBatchTiers(ws, n);
    } else if |ws| > n {
      SplitAligned(ws, n);
      OneBatchTiers(ws[..n], n);
      StrictTiersExactlyWhenAligned(ws[n..], n);
      PrependTiers(ws[..n], Chunks(ws[n..], n));
    }
  }
}
