/** Priority tiers on runs: when two of them are restarted at the same time. */
module Tiers {
  import opened Kube
  import opened Workloads
  import opened Batches
  import opened Groups
  import StableSort

  /** Two workloads of different priorities are being restarted at once. */
  ghost predicate TiersMeet(g: Group, ws: seq<Workload>) {
    exists i, j :: 0 <= i < j < |ws| && j < |g.jobs| &&
      g.jobs[i].Active? && g.jobs[j].Active? && ws[i].priority != ws[j].priority
  }

  /** Some run of the batches comes to a state in which tiers meet. */
  ghost predicate CanMeet(ws: seq<Workload>, n: nat) {
    exists gs, g :: Run(gs, |ws|, n) && g == gs[|gs| - 1] && TiersMeet(g, ws)
  }

  // ----- aligned tiers never meet -----

  lemma AlignedBatchIsFlat(ws: seq<Workload>, n: nat, from: nat, to: nat)
    requires n > 0 && from <= to <= |ws| && to <= from + n && Boundary(from, n) && TiersAligned(ws, n)
    ensures forall i, j :: from <= i < to && from <= j < to ==> ws[i].priority == ws[j].priority
  {
    var batch := ws[from..to];
    forall i | 0 < i < |batch| ensures batch[i - 1].priority == batch[i].priority {
      var k := from + i;
      if Boundary(k, n) {
        BoundaryGap(from, k, n);
      }
      assert batch[i] == ws[k] && batch[i - 1] == ws[k - 1];
    }
    FlatPriority(batch);
    assert forall i :: from <= i < to ==> ws[i] == batch[i - from];
  }

  lemma AlignedNeverMeet(ws: seq<Workload>, n: nat, g: Group)
    requires n > 0 && TiersAligned(ws, n) && Inv(g, n) && |g.jobs| == |ws|
    ensures !TiersMeet(g, ws)
  {
    if g.start < |ws| {
      AlignedBatchIsFlat(ws, n, g.start, g.End(n));
    }
  }

  // ----- tiers that are not aligned can meet -----

  /** The jobs before `done` have passed, and the batch that begins at `start` is under way. */
  function Progress(count: nat, start: nat, done: nat): Group {
    Group(seq(count, i => if i < done then Passed else Queued), start, None)
  }

  lemma Extend(gs: seq<Group>, count: nat, n: nat, g: Group)
    requires Run(gs, count, n) && Next(gs[|gs| - 1], g, n)
    ensures Run(gs + [g], count, n)
  {
    var more := gs + [g];
    forall k | 0 <= k < |more| - 1 ensures Next(more[k], more[k + 1], n) {
      if k < |gs| - 1 {
        assert more[k] == gs[k] && more[k + 1] == gs[k + 1];
      }
    }
  }

  /** Every batch can be reached: all jobs before it pass. */
  lemma {:induction false} BatchReached(count: nat, n: nat, start: nat) returns (gs: seq<Group>)
    requires n > 0 && Boundary(start, n) && start < count
    ensures Run(gs, count, n) && gs[|gs| - 1] == Progress(count, start, start)
    decreases start
  {
    if start == 0 {
      gs := [Init(count)];
      assert Init(count).jobs == Progress(count, 0, 0).jobs;
    } else {
      var before := start - n;
      gs := BatchReached(count, n, before);
      var done := before;
      while done < start
        invariant before <= done <= start
        invariant Run(gs, count, n) && gs[|gs| - 1] == Progress(count, before, done)
      {
        var started := Start(gs[|gs| - 1], done);
        assert CanStart(gs[|gs| - 1], n, done);
        Extend(gs, count, n, started);
        gs := gs + [started];
        assert CanFinish(started, done);
        var passed := Finish(started, done, true);
        Extend(gs, count, n, passed);
        gs := gs + [passed];
        assert passed.jobs == Progress(count, before, done + 1).jobs;
        done := done + 1;
      }
      var g := gs[|gs| - 1];
      assert g.End(n) == start && CanJoin(g, n) && !g.BatchFailed(n);
      Extend(gs, count, n, Join(g, n));
      gs := gs + [Join(g, n)];
    }
  }

  lemma NeighboursMeet(ws: seq<Workload>, n: nat, i: nat)
    requires n > 0 && 0 < i < |ws| && ws[i - 1].priority != ws[i].priority && !Boundary(i, n)
    ensures CanMeet(ws, n)
  {
    var start := BatchStart(i, n);
    var gs := BatchReached(|ws|, n, start);
    var g := gs[|gs| - 1];
    assert CanStart(g, n, i - 1);
    Extend(gs, |ws|, n, Start(g, i - 1));
    gs := gs + [Start(g, i - 1)];
    var g' := Start(g, i - 1);
    assert CanStart(g', n, i);
    Extend(gs, |ws|, n, Start(g', i));
    gs := gs + [Start(g', i)];
    assert TiersMeet(Start(g', i), ws);
  }

  /** Two tiers can be restarted at the same time exactly when some tier begins inside a batch. */
  lemma {:induction false} TiersMeetExactlyWhenMisaligned(ws: seq<Workload>, n: nat)
    requires n > 0
    ensures CanMeet(ws, n) <==> !TiersAligned(ws, n)
  {
    if CanMeet(ws, n) {
      var gs, g :| Run(gs, |ws|, n) && g == gs[|gs| - 1] && TiersMeet(g, ws);
      RunInv(gs, |ws|, n, |gs| - 1);
      if TiersAligned(ws, n) {
        AlignedNeverMeet(ws, n, g);
      }
    }
    if !TiersAligned(ws, n) {
      var i :| 0 < i < |ws| && ws[i - 1].priority != ws[i].priority && !Boundary(i, n);
      NeighboursMeet(ws, n, i);
    }
  }

  /** A sorted list of a critical workload and two others, restarted two at a time: the first batch mixes
      both tiers, on paper and at run time. */
  lemma CriticalTierShared(a: Workload, b: Workload, c: Workload)
    requires a.priority == 10 && b.priority == 100 && c.priority == 100
    ensures StableSort.StablySorted([a, b, c], [a, b, c])
    ensures !StrictTiers(Chunks([a, b, c], 2)) && CanMeet([a, b, c], 2)
  {
    var ws := [a, b, c];
    assert !Boundary(1, 2) && ws[0].priority != ws[1].priority;
    assert !TiersAligned(ws, 2);
    StrictTiersExactlyWhenAligned(ws, 2);
    TiersMeetExactlyWhenMisaligned(ws, 2);
  }
}
