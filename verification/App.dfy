/** Many nodes drained in batches that share one restart coordinator. */
module App {
  import opened Kube
  import opened Batches
  import C = Checkpoints
  import G = Groups

  // ----- where the batches stop -----

  function BatchEnd(from: nat, count: nat, n: nat): nat {
    if from + n < count then from + n else count
  }

  predicate AllOk(drains: seq<bool>, from: nat, to: nat)
    requires to <= |drains|
  {
    forall i :: from <= i < to ==> drains[i]
  }

  /** How many drains are started in all, when the batch that starts at `from` is reached. */
  function Reached(drains: seq<bool>, from: nat, n: nat): (stop: nat)
    requires n > 0 && from <= |drains|
    ensures from <= stop <= |drains|
    decreases |drains| - from
  {
    if from == |drains| then from
    else
      var end := BatchEnd(from, |drains|, n);
      if AllOk(drains, from, end) then Reached(drains, end, n) else end
  }

  /** Batches stop with the one that holds the first failure: it is started in full, and nothing after
      it; without a failure everything is started. */
  lemma {:induction false} ReachedMeaning(drains: seq<bool>, from: nat, n: nat)
    requires n > 0 && from <= |drains| && (from == |drains| || Boundary(from, n))
    ensures AllOk(drains, from, |drains|) ==> Reached(drains, from, n) == |drains|
    ensures forall f :: from <= f < |drains| && !drains[f] && AllOk(drains, from, f) ==>
      StopsInBatchOf(f, Reached(drains, from, n), |drains|, n)
    decreases |drains| - from
  {
    if from < |drains| {
      var end := BatchEnd(from, |drains|, n);
      assert end < |drains| ==> Boundary(from + n, n);
      if AllOk(drains, from, end) {
        ReachedMeaning(drains, end, n);
      }
      forall f | from <= f < |drains| && !drains[f] && AllOk(drains, from, f)
        ensures StopsInBatchOf(f, Reached(drains, from, n), |drains|, n)
      {
        if f < end {
          assert Boundary(from, n) && from <= f < BatchEnd(from, |drains|, n);
        } else {
          assert AllOk(drains, end, f);
        }
      }
    }
  }

  /** `stop` ends the batch that holds index `f`. */
  ghost predicate StopsInBatchOf(f: int, stop: nat, count: nat, n: nat)
    requires n > 0
  {
    exists start: nat :: Boundary(start, n) && start <= f < stop && stop == BatchEnd(start, count, n)
  }

  /** The batch of `n` that holds `f` was started in full, and nothing after it. */
  predicate StopsAfter(f: nat, stop: nat, count: nat, n: nat) {
    n > 0 && f < stop <= count && BatchOf(f, n) == BatchOf(stop - 1, n) && (stop == count || Boundary(stop, n))
  }

  /** The same by batch number, for the first failure `f`. */
  lemma {:induction false} FirstFailureStops(drains: seq<bool>, n: nat, f: nat)
    requires n > 0 && f < |drains| && !drains[f] && AllOk(drains, 0, f)
    ensures StopsAfter(f, Reached(drains, 0, n), |drains|, n)
  {
    ReachedMeaning(drains, 0, n);
    var stop := Reached(drains, 0, n);
    var start: nat :| Boundary(start, n) && start <= f < stop && stop == BatchEnd(start, |drains|, n);
    EndOfBatch(start, f, stop, |drains|, n);
  }

  lemma EndOfBatch(start: nat, f: nat, stop: nat, count: nat, n: nat)
    requires n > 0 && Boundary(start, n) && start <= f < stop && stop == BatchEnd(start, count, n)
    ensures StopsAfter(f, stop, count, n)
  {
    SameBatch(start, f, n);
    SameBatch(start, stop - 1, n);
    if stop < count {
      assert Boundary(start + n, n);
    }
  }

  lemma {:induction false} SameBatch(start: nat, i: nat, n: nat)
    requires n > 0 && Boundary(start, n) && start <= i < start + n
    ensures BatchOf(i, n) == BatchOf(start, n)
  {
    G.EarlierBatchMeaning(start, i, n);
    if G.EarlierBatch(start, i, n) {
      var m: nat :| start < m <= i && Boundary(m, n);
      G.BoundaryGap(start, m, n);
    }
    G.EarlierBatchMeaning(i, start, n);
  }

  // ----- the drain of all nodes -----

  datatype Plan = Plan(nodes: seq<string>, nodeConcurrency: int)

  /** Drains the nodes one after another, or in batches each of which is started in full and awaited.
      `drains` holds what each node's drain returns when it is started. */
  method RunResolved(plan: Plan, drains: seq<bool>) returns (ok: bool, started: seq<string>, shared: bool)
    requires |drains| == |plan.nodes|
    ensures ok <==> forall i :: 0 <= i < |drains| ==> drains[i]
    ensures started <= plan.nodes && (ok ==> started == plan.nodes)
    ensures forall f: nat | f < |drains| && !drains[f] && (forall i :: 0 <= i < f ==> drains[i]) ::
      StopsAfter(f, |started|, |drains|, if plan.nodeConcurrency <= 0 then |plan.nodes| else plan.nodeConcurrency)
    ensures shared <==> |plan.nodes| > 1
  {
    var nodes := plan.nodes;
    shared := |nodes| > 1;
    var concurrency := plan.nodeConcurrency;
    if concurrency <= 0 {
      concurrency := |nodes|;
    }
    var reached := 0;
    if concurrency == 1 {
      ok, reached := DrainOneByOne(drains);
    } else if nodes == [] {
      ok := true;
    } else {
      ok, reached := DrainInBatches(drains, concurrency);
    }
    started := nodes[..reached];
    if nodes != [] {
      ReachedMeaning(drains, 0, concurrency);
      forall f: nat | f < |drains| && !drains[f] && AllOk(drains, 0, f)
        ensures StopsAfter(f, reached, |drains|, concurrency)
      {
        FirstFailureStops(drains, concurrency, f);
      }
    }
  }

  method DrainOneByOne(drains: seq<bool>) returns (ok: bool, reached: nat)
    ensures ok <==> AllOk(drains, 0, |drains|)
    ensures reached == Reached(drains, 0, 1)
  {
    for i := 0 to |drains|
      invariant AllOk(drains, 0, i) && Reached(drains, i, 1) == Reached(drains, 0, 1)
    {
      if !drains[i] {
        return false, i + 1;
      }
    }
    return true, |drains|;
  }

  method DrainInBatches(drains: seq<bool>, concurrency: nat) returns (ok: bool, reached: nat)
    requires concurrency > 0
    ensures ok <==> AllOk(drains, 0, |drains|)
    ensures reached == Reached(drains, 0, concurrency)
  {
    var batchStart := 0;
    reached := 0;
    while batchStart < |drains|
      invariant 0 <= batchStart && reached == if batchStart < |drains| then batchStart else |drains|
      invariant AllOk(drains, 0, reached)
      invariant Reached(drains, reached, concurrency) == Reached(drains, 0, concurrency)
    {
      var end := if batchStart + concurrency < |drains| then batchStart + concurrency else |drains|;
      var batchOk := DrainBatch(drains, batchStart, end);
      reached := end;
      if !batchOk {
        return false, reached;
      }
      batchStart := batchStart + concurrency;
    }
    ok := true;
  }

  /** Starts every drain of a batch, waits for all of them, and reports whether any failed. */
  method DrainBatch(drains: seq<bool>, from: nat, to: nat) returns (ok: bool)
    requires from <= to <= |drains|
    ensures ok <==> AllOk(drains, from, to)
  {
    ok := true;
    for i := from to to
      invariant ok <==> AllOk(drains, from, i)
    {
      ok := ok && drains[i];
    }
  }

  // ----- the same, as concurrent jobs -----

  /** The jobs that are over ended as the drains say. */
  predicate Reports(g: G.Group, drains: seq<bool>) {
    |g.jobs| == |drains| &&
    forall i :: 0 <= i < |drains| ==> (g.jobs[i].Passed? ==> drains[i]) && (g.jobs[i].Broken? ==> !drains[i])
  }

  ghost predicate OnCourse(g: G.Group, drains: seq<bool>, n: nat)
    requires n > 0 && g.start <= |drains|
  {
    if g.outcome == Some(false) then Reached(drains, 0, n) == g.End(n)
    else Reached(drains, g.start, n) == Reached(drains, 0, n)
  }

  /** The earlier jobs of a group ended as the later ones say: a job that is over stays as it is. */
  lemma ReportsBackwards(gs: seq<G.Group>, drains: seq<bool>, n: nat, k: nat)
    requires n > 0 && G.Run(gs, |drains|, n) && k + 1 < |gs| && Reports(gs[k + 1], drains)
    ensures Reports(gs[k], drains)
  {
    G.RunInv(gs, |drains|, n, k);
    var g, g' := gs[k], gs[k + 1];
    assert G.Next(g, g', n);
    forall i | 0 <= i < |drains|
      ensures (g.jobs[i].Passed? ==> drains[i]) && (g.jobs[i].Broken? ==> !drains[i])
    {
      assert g.jobs[i].Passed? || g.jobs[i].Broken? ==> g'.jobs[i] == g.jobs[i];
    }
  }

  lemma CourseStep(gs: seq<G.Group>, drains: seq<bool>, n: nat, k: nat)
    requires n > 0 && G.Run(gs, |drains|, n) && k + 1 < |gs| && Reports(gs[k], drains) && Reports(gs[k + 1], drains)
    requires gs[k].start <= |drains| && OnCourse(gs[k], drains, n)
    ensures gs[k + 1].start <= |drains| && OnCourse(gs[k + 1], drains, n)
  {
    G.RunInv(gs, |drains|, n, k);
    var g, g' := gs[k], gs[k + 1];
    G.StepInv(g, g', n);
    if G.CanJoin(g, n) && g' == G.Join(g, n) && g.start < |drains| {
      assert AllOk(drains, g.start, g.End(n)) <==> !g.BatchFailed(n);
    }
  }

  lemma {:induction false} StaysOnCourse(gs: seq<G.Group>, drains: seq<bool>, n: nat, k: nat)
    requires n > 0 && G.Run(gs, |drains|, n) && k < |gs| && Reports(gs[k], drains)
    ensures gs[k].start <= |drains| && OnCourse(gs[k], drains, n)
  {
    if k > 0 {
      ReportsBackwards(gs, drains, n, k - 1);
      StaysOnCourse(gs, drains, n, k - 1);
      CourseStep(gs, drains, n, k - 1);
    }
  }

  /** The sequential account above and every interleaving of the concurrent drains agree: the same
      result, and exactly the same nodes started. */
  lemma {:induction false} InterleavingsAgree(gs: seq<G.Group>, last: G.Group, drains: seq<bool>, n: nat)
    requires n > 0 && G.Run(gs, |drains|, n) && last == gs[|gs| - 1]
    requires last.outcome.Some? && Reports(last, drains)
    ensures last.outcome.value <==> AllOk(drains, 0, |drains|)
    ensures forall i :: 0 <= i < |last.jobs| ==> (last.jobs[i].Queued? <==> i >= Reached(drains, 0, n))
  {
    G.RunInv(gs, |drains|, n, |gs| - 1);
    G.OutcomeMeaning(last, n);
    StaysOnCourse(gs, drains, n, |gs| - 1);
  }

  // ----- checkpoint files of many nodes -----

  /** An explicit checkpoint path is for a single node. */
  predicate ValidateTargets(path: string, nodes: seq<string>) {
    path == "" || |nodes| <= 1
  }

  function FileFor(path: string, ctx: string, node: string): string {
    if path != "" then path else C.DefaultFile(ctx, node)
  }

  /** Validated targets never share a checkpoint file. */
  lemma FilesApart(path: string, ctx: string, nodes: seq<string>, i: nat, j: nat)
    requires ValidateTargets(path, nodes) && i < |nodes| && j < |nodes|
    requires forall k, c :: 0 <= k < |nodes| && c in nodes[k] ==> c != '/' && c != ':' && c != ' ' && c != '\\'
    ensures FileFor(path, ctx, nodes[i]) == FileFor(path, ctx, nodes[j]) <==> nodes[i] == nodes[j]
  {
    if path == "" {
      C.OneFilePerNode(ctx, nodes[i], nodes[j]);
    }
  }

  /** Targets are refused only when two of them would be given one file. */
  lemma RefusedTargetsShare(path: string, ctx: string, nodes: seq<string>)
    requires !ValidateTargets(path, nodes)
    ensures |nodes| > 1 && FileFor(path, ctx, nodes[0]) == FileFor(path, ctx, nodes[1])
  {}
}
