/** Jobs run in consecutive batches by a fail-fast group: every job of a batch starts, the group
    waits for all of them, and the first failure stops the sequence of batches. */
module Groups {
  import opened Kube
  import opened Batches

  datatype Job = Queued | Active | Passed | Broken

  datatype Group = Group(jobs: seq<Job>, start: nat, outcome: Option<bool>) {

    /** The end of the batch that starts at `start`. */
    function End(n: nat): nat {
      if start + n < |jobs| then start + n else |jobs|
    }

    predicate InBatch(i: nat, n: nat) { start <= i < End(n) }

    predicate BatchOver(n: nat) {
      forall i :: start <= i < End(n) && i < |jobs| ==> jobs[i].Passed? || jobs[i].Broken?
    }

    predicate BatchFailed(n: nat) {
      exists i :: start <= i < End(n) && i < |jobs| && jobs[i].Broken?
    }
  }

  function Init(count: nat): Group {
    Group(seq(count, _ => Queued), 0, None)
  }

  predicate CanStart(g: Group, n: nat, i: nat) {
    g.outcome.None? && i < |g.jobs| && g.InBatch(i, n) && g.jobs[i].Queued?
  }

  function Start(g: Group, i: nat): Group
    requires i < |g.jobs|
  {
    g.(jobs := g.jobs[i := Active])
  }

  predicate CanFinish(g: Group, i: nat) {
    i < |g.jobs| && g.jobs[i].Active?
  }

  function Finish(g: Group, i: nat, ok: bool): Group
    requires i < |g.jobs|
  {
    g.(jobs := g.jobs[i := if ok then Passed else Broken])
  }

  predicate CanJoin(g: Group, n: nat) {
    g.outcome.None? && g.BatchOver(n)
  }

  /** The wait returns: stop on failure, otherwise move to the next batch or finish. */
  function Join(g: Group, n: nat): Group {
    if g.BatchFailed(n) then g.(outcome := Some(false))
    else if g.End(n) == |g.jobs| then g.(start := g.End(n), outcome := Some(true))
    else g.(start := g.End(n))
  }

  ghost predicate Next(g: Group, g': Group, n: nat) {
    || (exists i :: CanStart(g, n, i) && g' == Start(g, i))
    || (exists i, ok :: CanFinish(g, i) && g' == Finish(g, i, ok))
    || (CanJoin(g, n) && g' == Join(g, n))
  }

  /** A run of `count` jobs in batches of `n`. */
  ghost predicate Run(gs: seq<Group>, count: nat, n: nat) {
    |gs| > 0 && gs[0] == Init(count) && forall k :: 0 <= k < |gs| - 1 ==> Next(gs[k], gs[k + 1], n)
  }

  ghost predicate Inv(g: Group, n: nat)
    requires n > 0
  {
    g.start <= |g.jobs| && (g.start < |g.jobs| ==> Boundary(g.start, n)) &&
    (forall i :: 0 <= i < g.start ==> g.jobs[i].Passed?) &&
    (forall i :: g.End(n) <= i < |g.jobs| ==> g.jobs[i].Queued?) &&
    (g.outcome.Some? && g.outcome.value ==> g.start == |g.jobs|) &&
    (g.outcome.Some? && !g.outcome.value ==> g.BatchOver(n) && g.BatchFailed(n))
  }

  lemma InitInv(count: nat, n: nat)
    requires n > 0
    ensures Inv(Init(count), n)
  {}

  lemma StepInv(g: Group, g': Group, n: nat)
    requires n > 0 && Inv(g, n) && Next(g, g', n)
    ensures Inv(g', n)
    ensures |g'.jobs| == |g.jobs| && g.outcome.None?
  {
    if CanJoin(g, n) && g' == Join(g, n) {
      assert g.start + n < |g.jobs| ==> Boundary(g.start + n, n);
    } else if i, ok :| CanFinish(g, i) && g' == Finish(g, i, ok) {
      assert g.InBatch(i, n);
    }
  }

  lemma BoundaryGap(a: nat, b: nat, n: nat)
    requires n > 0 && a < b && Boundary(a, n) && Boundary(b, n)
    ensures a + n <= b
  {
    if a >= n {
      BoundaryGap(a - n, b - n, n);
    }
  }

  /** `j` belongs to a batch before that of `i`: a batch boundary separates them. */
  ghost predicate EarlierBatch(j: nat, i: nat, n: nat)
    requires n > 0
  {
    exists m: nat :: j < m <= i && Boundary(m, n)
  }

  /** In terms of batch numbers: a boundary separates two jobs exactly when their batches differ. */
  lemma {:induction false} EarlierBatchMeaning(j: nat, i: nat, n: nat)
    requires n > 0
    ensures EarlierBatch(j, i, n) <==> BatchOf(j, n) < BatchOf(i, n)
    ensures EarlierBatch(j, i, n) <==> j / n < i / n
  {
    BatchMeaning(j, n);
    BatchMeaning(i, n);
    if j < n <= i {
      assert j < BatchStart(i, n) <= i && Boundary(BatchStart(i, n), n);
    } else if n <= j && n <= i {
      EarlierBatchMeaning(j - n, i - n, n);
      if EarlierBatch(j, i, n) {
        var m: nat :| j < m <= i && Boundary(m, n);
        assert j - n < m - n <= i - n && Boundary(m - n, n);
      }
      if EarlierBatch(j - n, i - n, n) {
        var m: nat :| j - n < m <= i - n && Boundary(m, n);
        assert j < m + n <= i && Boundary(m + n, n);
      }
    }
  }

  /** A job whose batch has begun may start. */
  lemma CompanionInBatch(g: Group, n: nat, i: nat, j: nat)
    requires n > 0 && Inv(g, n) && i < |g.jobs| && j < |g.jobs| && i / n == j / n
    requires g.outcome.None? && g.jobs[i].Queued? && !g.jobs[j].Queued?
    ensures CanStart(g, n, i)
  {
    EarlierBatchMeaning(j, i, n);
    assert forall m: nat :: j < m <= i ==> !Boundary(m, n);
    assert g.start + n < |g.jobs| ==> Boundary(g.start + n, n);
  }

  /** A job that has started proves every job of every earlier batch succeeded. */
  lemma EarlierBatchesPassed(g: Group, n: nat, j: nat, i: nat)
    requires n > 0 && Inv(g, n)
    requires i < |g.jobs| && EarlierBatch(j, i, n) && !g.jobs[i].Queued?
    ensures g.jobs[j].Passed?
  {
    var m: nat :| j < m <= i && Boundary(m, n);
    if g.start < m {
      BoundaryGap(g.start, m, n);
    }
  }

  function CountActive(jobs: seq<Job>): nat {
    if jobs == [] then 0 else (if jobs[0].Active? then 1 else 0) + CountActive(jobs[1..])
  }

  lemma {:induction false} CountActiveWindow(jobs: seq<Job>, lo: nat, hi: nat)
    requires lo <= hi <= |jobs|
    requires forall i :: 0 <= i < |jobs| && jobs[i].Active? ==> lo <= i < hi
    ensures CountActive(jobs) <= hi - lo
  {
    if jobs != [] {
      var rest := jobs[1..];
      assert forall i :: 0 <= i < |rest| ==> rest[i] == jobs[i + 1];
      if lo > 0 {
        CountActiveWindow(rest, lo - 1, hi - 1);
      } else if hi > 0 {
        CountActiveWindow(rest, 0, hi - 1);
      } else {
        CountActiveWindow(rest, 0, 0);
      }
    }
  }

  /** At most `n` jobs run at once. */
  lemma BoundedConcurrency(g: Group, n: nat)
    requires n > 0 && Inv(g, n)
    ensures CountActive(g.jobs) <= n
  {
    CountActiveWindow(g.jobs, g.start, g.End(n));
  }

  /** The overall outcome: success exactly when every job succeeded, failure exactly when the batch
      reached last has a failed job. */
  lemma OutcomeMeaning(g: Group, n: nat)
    requires n > 0 && Inv(g, n) && g.outcome.Some?
    ensures g.outcome.value <==> forall i :: 0 <= i < |g.jobs| ==> g.jobs[i].Passed?
    ensures !g.outcome.value <==> exists i :: 0 <= i < |g.jobs| && g.jobs[i].Broken?
  {}

  lemma {:induction false} RunInv(gs: seq<Group>, count: nat, n: nat, k: nat)
    requires n > 0 && Run(gs, count, n) && k < |gs|
    ensures forall m: nat :: m <= k ==> Inv(gs[m], n) && |gs[m].jobs| == count
  {
    if k == 0 {
      InitInv(count, n);
    } else {
      RunInv(gs, count, n, k - 1);
      assert Next(gs[k - 1], gs[k - 1 + 1], n);
      StepInv(gs[k - 1], gs[k], n);
    }
  }

  /** Every run of a batch sequence, at every moment: at most `n` jobs at once; a job starts only
      after all earlier batches succeeded; and after a failure no later batch has started. */
  lemma {:induction false} BatchDiscipline(gs: seq<Group>, count: nat, n: nat, k: nat)
    requires n > 0 && Run(gs, count, n) && k < |gs|
    ensures CountActive(gs[k].jobs) <= n
    ensures |gs[k].jobs| == count
    ensures forall j: nat, i: nat :: i < count && EarlierBatch(j, i, n) && !gs[k].jobs[i].Queued? ==>
      j < count && gs[k].jobs[j].Passed?
    ensures gs[k].outcome.Some? ==> k == |gs| - 1
    ensures gs[k].outcome.Some? ==> (gs[k].outcome.value <==> forall i :: 0 <= i < count ==> gs[k].jobs[i].Passed?)
  {
    RunInv(gs, count, n, k);
    BoundedConcurrency(gs[k], n);
    forall j: nat, i: nat | i < count && EarlierBatch(j, i, n) && !gs[k].jobs[i].Queued?
      ensures j < count && gs[k].jobs[j].Passed?
    {
      EarlierBatchesPassed(gs[k], n, j, i);
    }
    if gs[k].outcome.Some? {
      OutcomeMeaning(gs[k], n);
      if k < |gs| - 1 {
        assert Next(gs[k], gs[k + 1], n);
        StepInv(gs[k], gs[k + 1], n);
      }
    }
  }
}
