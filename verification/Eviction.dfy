/** Evicting what is left on a node after the rolling restarts. */
module Eviction {
  import opened Kube
  import opened Labels
  import opened Workloads
  import opened Trace
  import Backoff

  datatype Flags = Flags(skipDaemonSets: bool, force: bool, deleteEmptyDir: bool, forceDeleteStandalone: bool)

  // ----- what each pod is owed -----

  datatype Class = Evictable | Blocked | PendingDeletion | Ignored

  predicate NeedsForce(pod: Pod) {
    pod.owners == [] || pod.IsJobPod()
  }

  /** Every pod falls in exactly one class. */
  function Classify(f: Flags, pod: Pod): Class {
    if pod.IsTerminal() || pod.mirror || (pod.IsDaemonSetPod() && f.skipDaemonSets) then Ignored
    else if pod.deleting then PendingDeletion
    else if !f.force && (NeedsForce(pod) || (pod.emptyDir && !f.deleteEmptyDir)) then Blocked
    else Evictable
  }

  // ----- the classes, read off the pods and the flags -----

  /** Neither finished nor the kubelet's own, and no DaemonSet's when those are to be skipped. */
  predicate Concerns(f: Flags, p: Pod) {
    !p.phase.Succeeded? && !p.phase.Failed? && !p.mirror &&
    (f.skipDaemonSets ==> forall ref :: ref in p.owners ==> ref.kind != "DaemonSet")
  }

  /** The pod may go only with --force, or, for its emptyDir volume, with the flag for those. */
  predicate NeedsConsent(f: Flags, p: Pod) {
    p.owners == [] || (exists ref :: ref in p.owners && ref.kind == "Job") || (p.emptyDir && !f.deleteEmptyDir)
  }

  predicate MayBeRemoved(f: Flags, p: Pod) {
    Concerns(f, p) && !p.deleting && (f.force || !NeedsConsent(f, p))
  }

  predicate Blocks(f: Flags, p: Pod) {
    Concerns(f, p) && !p.deleting && !f.force && NeedsConsent(f, p)
  }

  predicate OnItsWayOut(f: Flags, p: Pod) {
    Concerns(f, p) && p.deleting
  }

  lemma {:induction false} ClassExactly(f: Flags, p: Pod)
    ensures Classify(f, p) == Evictable <==> MayBeRemoved(f, p)
    ensures Classify(f, p) == Blocked <==> Blocks(f, p)
    ensures Classify(f, p) == PendingDeletion <==> OnItsWayOut(f, p)
    ensures Classify(f, p) == Ignored <==> !Concerns(f, p)
  {
    assert forall i :: 0 <= i < |p.owners| ==> p.owners[i] in p.owners;
  }

  function OfClass(f: Flags, c: Class, pods: seq<Pod>): seq<Pod> {
    if pods == [] then []
    else
      var n := |pods| - 1;
      OfClass(f, c, pods[..n]) + if Classify(f, pods[n]) == c then [pods[n]] else []
  }

  lemma {:induction false} OfClassMembers(f: Flags, c: Class, pods: seq<Pod>)
    ensures forall p :: p in OfClass(f, c, pods) <==> p in pods && Classify(f, p) == c
  {
    if pods != [] {
      var n := |pods| - 1;
      OfClassMembers(f, c, pods[..n]);
      assert pods == pods[..n] + [pods[n]];
    }
  }

  lemma EvictableMembers(f: Flags, pods: seq<Pod>)
    ensures forall p :: p in OfClass(f, Evictable, pods) <==> p in pods && MayBeRemoved(f, p)
  {
    OfClassMembers(f, Evictable, pods);
    forall p: Pod ensures Classify(f, p) == Evictable <==> MayBeRemoved(f, p) {
      ClassExactly(f, p);
    }
  }

  lemma PendingMembers(f: Flags, pods: seq<Pod>)
    ensures forall p :: p in OfClass(f, PendingDeletion, pods) <==> p in pods && OnItsWayOut(f, p)
  {
    OfClassMembers(f, PendingDeletion, pods);
    forall p: Pod ensures Classify(f, p) == PendingDeletion <==> OnItsWayOut(f, p) {
      ClassExactly(f, p);
    }
  }

  function Count(f: Flags, c: Class, pods: seq<Pod>, pod: Pod): nat {
    multiset(OfClass(f, c, pods))[pod]
  }

  /** A class holds each of its pods as often as the list does, and no other pod. */
  lemma {:induction false} ClassCounts(f: Flags, c: Class, pods: seq<Pod>, pod: Pod)
    ensures Count(f, c, pods, pod) == if Classify(f, pod) == c then multiset(pods)[pod] else 0
  {
    if pods != [] {
      var front, last := pods[..|pods| - 1], pods[|pods| - 1];
      ClassCounts(f, c, front, pod);
      assert pods == front + [last];
      assert OfClass(f, c, pods) == OfClass(f, c, front) + if Classify(f, last) == c then [last] else [];
    }
  }

  /** Under every flag setting the four classes partition a pod list, multiplicity included. */
  lemma {:induction false} ClassesPartition(f: Flags, pods: seq<Pod>)
    ensures multiset(pods) ==
      multiset(OfClass(f, Evictable, pods)) + multiset(OfClass(f, Blocked, pods)) +
      multiset(OfClass(f, PendingDeletion, pods)) + multiset(OfClass(f, Ignored, pods))
  {
    forall pod: Pod
      ensures multiset(pods)[pod] == Count(f, Evictable, pods, pod) + Count(f, Blocked, pods, pod) +
        Count(f, PendingDeletion, pods, pod) + Count(f, Ignored, pods, pod)
    {
      ClassCounts(f, Evictable, pods, pod);
      ClassCounts(f, Blocked, pods, pod);
      ClassCounts(f, PendingDeletion, pods, pod);
      ClassCounts(f, Ignored, pods, pod);
    }
  }

  method FilterEvictable(f: Flags, pods: seq<Pod>) returns (out: seq<Pod>)
    ensures out == OfClass(f, Evictable, pods)
    ensures forall p :: p in out <==> p in pods && MayBeRemoved(f, p)
  {
    EvictableMembers(f, pods);
    out := [];
    for i := 0 to |pods|
      invariant out == OfClass(f, Evictable, pods[..i])
    {
      var pod := pods[i];
      assert pods[..i + 1][..i] == pods[..i];
      if pod.deleting {
        continue;
      }
      if pod.IsTerminal() {
        continue;
      }
      if pod.mirror {
        continue;
      }
      if pod.IsDaemonSetPod() && f.skipDaemonSets {
        continue;
      }
      if pod.emptyDir && !f.deleteEmptyDir && !f.force {
        continue;
      }
      if pod.owners == [] && !f.force {
        continue;
      }
      if pod.IsJobPod() && !f.force {
        continue;
      }
      out := out + [pod];
    }
    assert pods[..|pods|] == pods;
  }

  method PodsPendingDeletion(f: Flags, pods: seq<Pod>) returns (out: seq<Pod>)
    ensures out == OfClass(f, PendingDeletion, pods)
    ensures forall p :: p in out <==> p in pods && OnItsWayOut(f, p)
  {
    PendingMembers(f, pods);
    out := [];
    for i := 0 to |pods|
      invariant out == OfClass(f, PendingDeletion, pods[..i])
    {
      var pod := pods[i];
      assert pods[..i + 1][..i] == pods[..i];
      if !pod.deleting || pod.IsTerminal() || pod.mirror {
        continue;
      }
      if pod.IsDaemonSetPod() && f.skipDaemonSets {
        continue;
      }
      out := out + [pod];
    }
    assert pods[..|pods|] == pods;
  }

  datatype BlockedPod = BlockedPod(pod: Pod, reason: string)

  const STANDALONE := "standalone pods require --force"
  const JOB_OWNED := "Job-owned pods require --force"
  const EMPTY_DIR := "emptyDir pods require --delete-emptydir-data or --force"

  /** The reason shown is one that applies, the first in this order. */
  predicate Explains(b: BlockedPod) {
    if b.pod.owners == [] then b.reason == STANDALONE
    else if b.pod.IsJobPod() then b.reason == JOB_OWNED
    else b.pod.emptyDir && b.reason == EMPTY_DIR
  }

  function PodsOf(bs: seq<BlockedPod>): seq<Pod> {
    seq(|bs|, i requires 0 <= i < |bs| => bs[i].pod)
  }

  method BlockedEvictionPods(f: Flags, pods: seq<Pod>) returns (out: seq<BlockedPod>)
    ensures PodsOf(out) == OfClass(f, Blocked, pods)
    ensures forall b :: b in out ==> Explains(b) && b.pod in pods && Blocks(f, b.pod)
    ensures forall p :: p in pods && Blocks(f, p) ==> exists b :: b in out && b.pod == p
  {
    out := [];
    for i := 0 to |pods|
      invariant PodsOf(out) == OfClass(f, Blocked, pods[..i])
      invariant forall b :: b in out ==> Explains(b)
    {
      var pod := pods[i];
      assert pods[..i + 1][..i] == pods[..i];
      ghost var before := out;
      if pod.deleting || pod.IsTerminal() || pod.mirror {
        continue;
      }
      if pod.IsDaemonSetPod() && f.skipDaemonSets {
        continue;
      }
      if pod.owners == [] && !f.force {
        out := out + [BlockedPod(pod, STANDALONE)];
      } else if pod.IsJobPod() && !f.force {
        out := out + [BlockedPod(pod, JOB_OWNED)];
      } else if pod.emptyDir && !f.deleteEmptyDir && !f.force {
        out := out + [BlockedPod(pod, EMPTY_DIR)];
      }
      assert PodsOf(out) == PodsOf(before) + if out == before then [] else [pod];
    }
    assert pods[..|pods|] == pods;
    BlockedMembers(f, pods, out);
  }

  lemma BlockedMembers(f: Flags, pods: seq<Pod>, out: seq<BlockedPod>)
    requires PodsOf(out) == OfClass(f, Blocked, pods)
    ensures forall b :: b in out ==> b.pod in pods && Blocks(f, b.pod)
    ensures forall p :: p in pods && Blocks(f, p) ==> exists b :: b in out && b.pod == p
  {
    OfClassMembers(f, Blocked, pods);
    forall p: Pod ensures Classify(f, p) == Blocked <==> Blocks(f, p) {
      ClassExactly(f, p);
    }
    forall b | b in out ensures b.pod in pods && Blocks(f, b.pod) {
      var i :| 0 <= i < |out| && out[i] == b;
      assert PodsOf(out)[i] == b.pod;
    }
    forall p | p in pods && Blocks(f, p) ensures exists b :: b in out && b.pod == p {
      var i :| 0 <= i < |PodsOf(out)| && PodsOf(out)[i] == p;
      assert out[i] in out && out[i].pod == p;
    }
  }

  // ----- protected workloads -----

  /** The pod lies in the namespace of a filtered workload and its valid selector selects it. */
  predicate Protected(protected: seq<Workload>, pod: Pod) {
    exists w :: w in protected &&
      w.namespace == pod.namespace && w.selector.Some? && Selects(w.selector.value, pod.labels)
  }

  method ProtectedWorkloadForPod(protected: seq<Workload>, pod: Pod) returns (subject: string)
    ensures subject != "" <==> Protected(protected, pod)
    ensures subject != "" <==> exists w ::
      w in protected && w.namespace == pod.namespace && w.selector.Some? && Selects(w.selector.value, pod.labels)
  {
    for i := 0 to |protected|
      invariant forall k :: 0 <= k < i ==> !Protected([protected[k]], pod)
    {
      var w := protected[i];
      if w.namespace != pod.namespace || w.selector.None? || AsSelector(w.selector.value).Err? {
        continue;
      }
      if Matches(AsSelector(w.selector.value).value, pod.labels) {
        return KeyOf(w);
      }
    }
    forall w | w in protected ensures !Protected([w], pod) {
      var k :| 0 <= k < |protected| && protected[k] == w;
    }
    assert forall w :: w in protected ==> w in [w];
    subject := "";
  }

  function Unprotected(protected: seq<Workload>, pods: seq<Pod>): seq<Pod> {
    if pods == [] then []
    else
      var n := |pods| - 1;
      Unprotected(protected, pods[..n]) + if Protected(protected, pods[n]) then [] else [pods[n]]
  }

  lemma {:induction false} UnprotectedMembers(protected: seq<Workload>, pods: seq<Pod>)
    ensures forall p :: p in Unprotected(protected, pods) <==> p in pods && !Protected(protected, p)
  {
    if pods != [] {
      var n := |pods| - 1;
      UnprotectedMembers(protected, pods[..n]);
      assert pods == pods[..n] + [pods[n]];
    }
  }

  lemma {:induction false} NothingProtected(pods: seq<Pod>)
    ensures Unprotected([], pods) == pods
  {
    if pods != [] {
      var n := |pods| - 1;
      NothingProtected(pods[..n]);
      assert pods == pods[..n] + [pods[n]];
    }
  }

  method ExcludeProtectedPods(protected: seq<Workload>, pods: seq<Pod>) returns (out: seq<Pod>)
    ensures out == Unprotected(protected, pods)
  {
    if protected == [] {
      NothingProtected(pods);
      return pods;
    }
    out := [];
    for i := 0 to |pods|
      invariant out == Unprotected(protected, pods[..i])
    {
      assert pods[..i + 1][..i] == pods[..i];
      var subject := ProtectedWorkloadForPod(protected, pods[i]);
      if subject != "" {
        continue;
      }
      out := out + [pods[i]];
    }
    assert pods[..|pods|] == pods;
  }

  // ----- waiting for deletion -----

  /** The answer to a GET of an awaited pod. */
  datatype PodAnswer = Present(current: Pod) | GetFailed(error: ApiError)

  /** The pod is gone: not found, replaced by another one of that name, or finished. */
  predicate Resolves(answer: PodAnswer, awaited: Pod) {
    match answer
    case GetFailed(e) => e == NotFound
    case Present(current) => Replaced(current, awaited) || current.IsTerminal()
  }

  predicate Replaced(current: Pod, awaited: Pod) {
    current.uid != "" && awaited.uid != "" && current.uid != awaited.uid
  }

  /** Which answers count as gone: not found; another pod, when both UIDs are known; or one that has finished. */
  lemma {:induction false} ResolvesExactly(answer: PodAnswer, awaited: Pod)
    ensures Resolves(answer, awaited) <==>
      answer == GetFailed(NotFound) ||
      (answer.Present? && answer.current.uid != "" && awaited.uid != "" && answer.current.uid != awaited.uid) ||
      (answer.Present? && (answer.current.phase.Succeeded? || answer.current.phase.Failed?))
  {}

  /** Pods are awaited under their UID, or under namespace/name when they carry none. */
  function AwaitKey(pod: Pod): string {
    if pod.uid != "" then pod.uid else pod.namespace + "/" + pod.name
  }

  function Awaited(pods: seq<Pod>): map<string, Pod> {
    if pods == [] then map[]
    else
      var pod := pods[|pods| - 1];
      Awaited(pods[..|pods| - 1])[AwaitKey(pod) := pod.(uid := AwaitKey(pod))]
  }

  /** Every pod carries a UID, and no two different pods share one. */
  predicate UidsIdentify(pods: seq<Pod>) {
    (forall p :: p in pods ==> p.uid != "") && forall p, q :: p in pods && q in pods && p.uid == q.uid ==> p == q
  }

  lemma {:induction false} AwaitedKeys(pods: seq<Pod>)
    ensures forall key :: key in Awaited(pods) <==> exists i :: 0 <= i < |pods| && AwaitKey(pods[i]) == key
  {
    if pods != [] {
      AwaitedKeys(pods[..|pods| - 1]);
    }
  }

  /** With UIDs that identify pods, every listed pod is awaited as itself. */
  lemma {:induction false} AwaitedAsItself(pods: seq<Pod>, p: Pod)
    requires UidsIdentify(pods) && p in pods
    ensures p.uid in Awaited(pods) && Awaited(pods)[p.uid] == p
  {
    var front, last := pods[..|pods| - 1], pods[|pods| - 1];
    assert pods == front + [last];
    if p != last {
      assert last in pods && p in front;
      AwaitedAsItself(front, p);
    }
  }

  /** The awaited pod itself, still there and not finished, is taken for gone exactly when it was
      listed without a UID: UIDs hold no slash, so none equals the stand-in. */
  lemma TakenForGoneExactly(pod: Pod, current: Pod)
    requires current.uid != "" && '/' !in current.uid && !current.IsTerminal()
    requires pod.uid == "" || pod.uid == current.uid
    ensures Resolves(Present(current), Awaited([pod])[AwaitKey(pod)]) <==> pod.uid == ""
  {
    if pod.uid == "" {
      assert AwaitKey(pod)[|pod.namespace|] == '/';
    }
  }

  /** One GET made by the wait. */
  datatype Look = Look(poll: nat, key: string, answer: PodAnswer)

  type PodPolls = seq<string -> PodAnswer>

  ghost predicate Genuine(log: seq<Look>, polls: PodPolls) {
    forall l :: l in log ==> l.poll < |polls| && polls[l.poll](l.key) == l.answer
  }

  /** The key was seen resolved by a GET of one of the first `n` polls. */
  ghost predicate SeenGone(log: seq<Look>, awaited: map<string, Pod>, key: string, n: nat)
    requires key in awaited
  {
    exists l :: l in log && l.poll < n && l.key == key && Resolves(l.answer, awaited[key])
  }

  /** What is awaited after `n` polls: exactly the keys not yet seen resolved, with their pods. */
  ghost predicate StillAwaited(seen: map<string, Pod>, log: seq<Look>, awaited: map<string, Pod>, n: nat) {
    (forall key :: key in seen ==> key in awaited && seen[key] == awaited[key]) &&
    forall key :: key in awaited ==> (key !in seen <==> SeenGone(log, awaited, key, n))
  }

  /** A later poll's GETs settle exactly the keys it drops. */
  lemma PollAdvances(seen: map<string, Pod>, log: seq<Look>, awaited: map<string, Pod>, n: nat,
                     left: map<string, Pod>, more: seq<Look>)
    requires StillAwaited(seen, log, awaited, n)
    requires forall l :: l in log ==> l.poll < n
    requires forall l :: l in more ==> l.poll == n && l.key in seen
    requires left.Keys <= seen.Keys && forall key :: key in left ==> left[key] == seen[key]
    requires forall key :: key in seen ==> (key !in left <==> SeenGone(more, seen, key, n + 1))
    ensures StillAwaited(left, log + more, awaited, n + 1)
  {
    forall key | key in awaited
      ensures key !in left <==> SeenGone(log + more, awaited, key, n + 1)
    {
      if SeenGone(log, awaited, key, n) {
        var l :| l in log && l.poll < n && l.key == key && Resolves(l.answer, awaited[key]);
        assert l in log + more;
      } else if SeenGone(more, seen, key, n + 1) {
        var l :| l in more && l.poll < n + 1 && l.key == key && Resolves(l.answer, seen[key]);
        assert l in log + more;
      }
    }
  }

  /** Later GETs do not change what earlier polls had settled. */
  lemma PastIsSettled(seen: map<string, Pod>, log: seq<Look>, awaited: map<string, Pod>, n: nat, more: seq<Look>)
    requires StillAwaited(seen, log, awaited, n)
    requires forall l :: l in more ==> l.poll >= n
    ensures StillAwaited(seen, log + more, awaited, n)
  {
    forall key | key in awaited
      ensures SeenGone(log + more, awaited, key, n) <==> SeenGone(log, awaited, key, n)
    {
      if SeenGone(log, awaited, key, n) {
        var l :| l in log && l.poll < n && l.key == key && Resolves(l.answer, awaited[key]);
        assert l in log + more;
      }
      if SeenGone(log + more, awaited, key, n) {
        var l :| l in log + more && l.poll < n && l.key == key && Resolves(l.answer, awaited[key]);
        assert l in log;
      }
    }
  }

  predicate Answered(log: seq<Look>, poll: nat, key: string) {
    exists l :: l in log && l.poll == poll && l.key == key
  }

  predicate CutShort(log: seq<Look>, poll: nat) {
    exists l :: l in log && l.poll == poll && l.answer.GetFailed? && l.answer.error.IsTransient()
  }

  /** None of the first `n` polls passed over a pod: it was seen gone before, or asked for, or a
      transient error had cut the poll short. */
  ghost predicate Thorough(log: seq<Look>, awaited: map<string, Pod>, n: nat) {
    forall m: nat, key | m < n && key in awaited ::
      SeenGone(log, awaited, key, m) || Answered(log, m, key) || CutShort(log, m)
  }

  lemma ThoroughStep(log: seq<Look>, awaited: map<string, Pod>, n: nat, seen: map<string, Pod>, more: seq<Look>)
    requires Thorough(log, awaited, n) && StillAwaited(seen, log, awaited, n)
    requires CutShort(more, n) || forall key :: key in seen ==> Answered(more, n, key)
    ensures Thorough(log + more, awaited, n + 1)
  {
    assert forall l :: l in log || l in more ==> l in log + more;
    assert forall m: nat :: CutShort(log, m) || CutShort(more, m) ==> CutShort(log + more, m);
    forall m: nat, key | m < n + 1 && key in awaited
      ensures SeenGone(log + more, awaited, key, m) || Answered(log + more, m, key) || CutShort(log + more, m)
    {
      if SeenGone(log, awaited, key, m) {
        var l :| l in log && l.poll < m && l.key == key && Resolves(l.answer, awaited[key]);
        assert l in log + more;
      } else if Answered(log, m, key) {
        assert Answered(log + more, m, key);
      } else if Answered(more, m, key) {
        assert Answered(log + more, m, key);
      }
    }
  }

  datatype WaitResult = AllGone | WaitFailed(error: ApiError) | DeadlineReached

  /** What was awaited after each poll only shrinks, and is exactly what no GET had yet settled. */
  ghost predicate ShrinkingHistory(history: seq<map<string, Pod>>, log: seq<Look>, awaited: map<string, Pod>) {
    (forall n :: 0 <= n < |history| ==> StillAwaited(history[n], log, awaited, n + 1)) &&
    forall m, n :: 0 <= m <= n < |history| ==> history[n].Keys <= history[m].Keys
  }

  lemma HistoryStep(history: seq<map<string, Pod>>, log: seq<Look>, awaited: map<string, Pod>,
                    left: map<string, Pod>, more: seq<Look>)
    requires ShrinkingHistory(history, log, awaited)
    requires forall l :: l in more ==> l.poll == |history|
    requires |history| > 0 ==> left.Keys <= history[|history| - 1].Keys
    requires StillAwaited(left, log + more, awaited, |history| + 1)
    ensures ShrinkingHistory(history + [left], log + more, awaited)
  {
    forall n | 0 <= n < |history| ensures StillAwaited(history[n], log + more, awaited, n + 1) {
      PastIsSettled(history[n], log, awaited, n + 1, more);
    }
  }

  /** The state of the wait between polls. */
  ghost predicate Waiting(seen: map<string, Pod>, log: seq<Look>, history: seq<map<string, Pod>>,
                          awaited: map<string, Pod>, polls: PodPolls) {
    |history| <= |polls| && Genuine(log, polls) && (forall l :: l in log ==> l.poll < |history|) &&
    StillAwaited(seen, log, awaited, |history|) && ShrinkingHistory(history, log, awaited) &&
    (|history| > 0 ==> history[|history| - 1] == seen)
  }

  lemma LogStep(log: seq<Look>, more: seq<Look>, polls: PodPolls, n: nat)
    requires Genuine(log, polls) && Genuine(more, polls)
    requires (forall l :: l in log ==> l.poll < n) && forall l :: l in more ==> l.poll == n
    ensures Genuine(log + more, polls) && forall l :: l in log + more ==> l.poll < n + 1
  {}

  lemma WaitStep(seen: map<string, Pod>, log: seq<Look>, history: seq<map<string, Pod>>, awaited: map<string, Pod>,
                 polls: PodPolls, left: map<string, Pod>, more: seq<Look>)
    requires Waiting(seen, log, history, awaited, polls) && |history| < |polls|
    requires Polled(seen, left, more, polls, |history|)
    ensures Waiting(left, log + more, history + [left], awaited, polls)
  {
    LogStep(log, more, polls, |history|);
    PollAdvances(seen, log, awaited, |history|, left, more);
    HistoryStep(history, log, awaited, left, more);
  }

  lemma ThoroughWaiting(seen: map<string, Pod>, log: seq<Look>, history: seq<map<string, Pod>>,
                        awaited: map<string, Pod>, polls: PodPolls, more: seq<Look>)
    requires Waiting(seen, log, history, awaited, polls) && Thorough(log, awaited, |history|)
    requires CutShort(more, |history|) || forall key :: key in seen ==> Answered(more, |history|, key)
    ensures Thorough(log + more, awaited, |history| + 1)
  {
    ThoroughStep(log, awaited, |history|, seen, more);
  }

  lemma LeftOverdue(seen: map<string, Pod>, log: seq<Look>, history: seq<map<string, Pod>>,
                    pods: seq<Pod>, polls: PodPolls)
    requires Waiting(seen, log, history, Awaited(pods), polls) && Thorough(log, Awaited(pods), |polls|)
    requires |history| == |polls| && seen != map[]
    ensures Overdue(pods, polls, log)
  {
    var key :| key in seen;
    AwaitedKeys(pods);
    var i :| 0 <= i < |pods| && AwaitKey(pods[i]) == key;
    assert pods[i] in pods && !SeenGone(log, Awaited(pods), AwaitKey(pods[i]), |polls|);
  }

  /** The next poll, and what the wait has come to after it. */
  method PollNext(seen: map<string, Pod>, log: seq<Look>, ghost history: seq<map<string, Pod>>,
                  pods: seq<Pod>, polls: PodPolls, n: nat)
    returns (result: PollResult, left: map<string, Pod>, remaining: nat,
             log': seq<Look>, ghost history': seq<map<string, Pod>>)
    requires Waiting(seen, log, history, Awaited(pods), polls) && Thorough(log, Awaited(pods), |history|)
    requires n == |history| < |polls|
    ensures Waiting(left, log', history', Awaited(pods), polls) && |history'| == |history| + 1
    ensures if result.Broken? then Fatal(result.error, log') else Thorough(log', Awaited(pods), |history'|)
    ensures left == map[] ==> result == Finished && remaining == 0
    ensures result == Finished && remaining == 0 ==> left == map[]
  {
    var more;
    result, left, remaining, more := PollOnce(seen, polls, n);
    WaitStep(seen, log, history, Awaited(pods), polls, left, more);
    log', history' := log + more, history + [left];
    if result.Broken? {
      FatalLater(result.error, log', more);
    } else {
      ThoroughWaiting(seen, log, history, Awaited(pods), polls, more);
    }
  }

  /** Polls the awaited pods, in any order, until none is left. `polls` answers the GETs of each poll
      made before the deadline; `history` holds what was awaited after each poll. */
  method WaitForPodsDeleted(pods: seq<Pod>, polls: PodPolls)
    returns (r: WaitResult, log: seq<Look>, ghost history: seq<map<string, Pod>>)
    ensures Genuine(log, polls)
    ensures r == AllGone ==> AllSeenGone(log, pods, |polls|)
    ensures r == DeadlineReached ==> |history| == |polls| && Overdue(pods, polls, log)
    ensures r.WaitFailed? ==> Fatal(r.error, log)
    ensures ShrinkingHistory(history, log, Awaited(pods))
  {
    log, history := [], [];
    if pods == [] {
      return AllGone, [], [];
    }
    var seen := Awaited(pods);
    assert AwaitKey(pods[|pods| - 1]) in seen;
    var n := 0;
    while n < |polls|
      invariant 0 <= n <= |polls| && |history| == n
      invariant Waiting(seen, log, history, Awaited(pods), polls) && Thorough(log, Awaited(pods), n)
      invariant seen != map[]
    {
      var result, remaining;
      result, seen, remaining, log, history := PollNext(seen, log, history, pods, polls, n);
      n := n + 1;
      match result {
        case Broken(e) =>
          return WaitFailed(e), log, history;
        case Interrupted =>
        case Finished =>
          if remaining == 0 {
            KeysSettled(seen, log, pods, n, |polls|);
            return AllGone, log, history;
          }
      }
    }
    r := DeadlineReached;
    LeftOverdue(seen, log, history, pods, polls);
  }

  /** Every pod of the list is awaited, and was seen gone under its key. */
  ghost predicate AllSeenGone(log: seq<Look>, pods: seq<Pod>, n: nat) {
    forall p :: p in pods ==> AwaitKey(p) in Awaited(pods) && SeenGone(log, Awaited(pods), AwaitKey(p), n)
  }

  /** Every poll was made in earnest, and a pod was still not seen gone. */
  ghost predicate Overdue(pods: seq<Pod>, polls: PodPolls, log: seq<Look>) {
    Thorough(log, Awaited(pods), |polls|) &&
    exists p :: p in pods && AwaitKey(p) in Awaited(pods) && !SeenGone(log, Awaited(pods), AwaitKey(p), |polls|)
  }

  ghost predicate Fatal(e: ApiError, log: seq<Look>) {
    !e.IsTransient() && e != NotFound && exists l :: l in log && l.answer == GetFailed(e)
  }

  lemma FatalLater(e: ApiError, log: seq<Look>, more: seq<Look>)
    requires Fatal(e, more) && |more| <= |log| && log[|log| - |more|..] == more
    ensures Fatal(e, log)
  {
    var l :| l in more && l.answer == GetFailed(e);
    var i :| 0 <= i < |more| && more[i] == l;
    assert log[|log| - |more| + i] == l;
  }

  lemma KeysSettled(left: map<string, Pod>, log: seq<Look>, pods: seq<Pod>, n: nat, total: nat)
    requires left == map[] && StillAwaited(left, log, Awaited(pods), n) && n <= total
    ensures AllSeenGone(log, pods, total)
  {
    var awaited := Awaited(pods);
    AwaitedKeys(pods);
    forall p | p in pods ensures AwaitKey(p) in awaited && SeenGone(log, awaited, AwaitKey(p), total) {
      var i :| 0 <= i < |pods| && pods[i] == p;
      assert AwaitKey(pods[i]) in awaited;
      var l :| l in log && l.poll < n && l.key == AwaitKey(p) && Resolves(l.answer, awaited[AwaitKey(p)]);
    }
  }

  datatype PollResult = Finished | Interrupted | Broken(error: ApiError)

  /** The GETs of poll `n`: asked for awaited keys only, and dropping exactly those seen resolved. */
  ghost predicate Polled(seen: map<string, Pod>, left: map<string, Pod>, log: seq<Look>, polls: PodPolls, n: nat) {
    Genuine(log, polls) && (forall l :: l in log ==> l.poll == n && l.key in seen) &&
    left.Keys <= seen.Keys && (forall key :: key in left ==> left[key] == seen[key]) &&
    forall key :: key in seen ==> (key !in left <==> SeenGone(log, seen, key, n + 1))
  }

  /** One more GET settles its own key at most. */
  lemma LookStep(seen: map<string, Pod>, left: map<string, Pod>, log: seq<Look>, polls: PodPolls, n: nat, key: string)
    requires n < |polls| && Polled(seen, left, log, polls, n) && key in left
    ensures var answer := polls[n](key);
      Polled(seen, if Resolves(answer, seen[key]) then left - {key} else left, log + [Look(n, key, answer)], polls, n)
  {
    var look := Look(n, key, polls[n](key));
    var after := log + [look];
    forall k | k in seen
      ensures SeenGone(after, seen, k, n + 1) <==>
        SeenGone(log, seen, k, n + 1) || (k == key && Resolves(look.answer, seen[k]))
    {
      if SeenGone(log, seen, k, n + 1) {
        var l :| l in log && l.poll < n + 1 && l.key == k && Resolves(l.answer, seen[k]);
        assert l in after;
      } else if k == key && Resolves(look.answer, seen[k]) {
        assert look in after;
      }
    }
  }

  lemma AnsweredStep(log: seq<Look>, n: nat, look: Look)
    ensures forall key :: Answered(log, n, key) ==> Answered(log + [look], n, key)
    ensures Answered(log + [look], look.poll, look.key)
  {
    assert forall l :: l in log ==> l in log + [look];
    assert look in log + [look];
  }

  lemma DropKey(left: map<string, Pod>, key: string)
    requires key in left
    ensures (left - {key}).Keys == left.Keys - {key} && |(left - {key}).Keys| == |left.Keys| - 1
  {}

  /** One poll: asks for each awaited pod once, in any order, dropping those that are gone. A
      transient error cuts it short, keeping what it has dropped. */
  method PollOnce(seen: map<string, Pod>, polls: PodPolls, n: nat)
    returns (r: PollResult, left: map<string, Pod>, remaining: nat, log: seq<Look>)
    requires n < |polls|
    ensures Polled(seen, left, log, polls, n)
    ensures r == Finished ==> remaining == |left|
    ensures r == Finished ==> forall key :: key in seen ==> Answered(log, n, key)
    ensures r == Interrupted ==> left != map[] && CutShort(log, n)
    ensures r.Broken? ==> Fatal(r.error, log) && left != map[]
  {
    left, remaining, log := seen, 0, [];
    var todo := seen.Keys;
    assert forall key :: key in seen ==> !SeenGone([], seen, key, n + 1);
    while todo != {}
      invariant todo <= left.Keys && remaining == |left.Keys| - |todo|
      invariant Polled(seen, left, log, polls, n)
      invariant forall key :: key in seen && key !in todo ==> Answered(log, n, key)
      decreases |todo|
    {
      var key :| key in todo;
      todo := todo - {key};
      var answer := polls[n](key);
      assert left[key] == seen[key];
      LookStep(seen, left, log, polls, n, key);
      ghost var before := log;
      log := log + [Look(n, key, answer)];
      AnsweredStep(before, n, Look(n, key, answer));
      if answer.GetFailed? && answer.error != NotFound {
        assert log[|log| - 1] in log;
        if answer.error.IsTransient() {
          return Interrupted, left, remaining, log;
        }
        return Broken(answer.error), left, remaining, log;
      }
      if Resolves(answer, left[key]) {
        DropKey(left, key);
        left := left - {key};
      } else {
        remaining := remaining + 1;
      }
    }
    r := Finished;
  }

  // ----- the whole step -----

  /** The environment of the step. An `attempts` entry that ends early stands for a run cut short. */
  datatype Env = Env(
    listing: Result<seq<Pod>, ApiError>,
    attempts: Pod -> seq<Backoff.Attempt>,
    deletion: Pod -> Option<ApiError>,
    polls: PodPolls)

  /** Standalone pods may be deleted directly; all others go through the eviction API. */
  function Removal(f: Flags, pod: Pod): Write {
    if f.forceDeleteStandalone && pod.owners == [] then Delete(pod.namespace, pod.name)
    else Evict(pod.namespace, pod.name)
  }

  /** A write of this step: the removal of a pod of the listing that may be removed and that no filtered
      workload selects, deleted directly only if it stands alone and the flag says so. */
  ghost predicate Justified(f: Flags, protected: seq<Workload>, pods: seq<Pod>, w: Write) {
    exists p :: p in pods && !Protected(protected, p) && MayBeRemoved(f, p) &&
      w == if f.forceDeleteStandalone && p.owners == [] then Delete(p.namespace, p.name) else Evict(p.namespace, p.name)
  }

  /** Nothing remains to be done about the pod: it was left alone for a reason, or a GET showed that it is
      not found, that another pod has its name, or that it has finished. */
  ghost predicate Settled(f: Flags, protected: seq<Workload>, log: seq<Look>, pod: Pod) {
    Protected(protected, pod) || !Concerns(f, pod) ||
    exists l :: l in log && l.key == pod.uid &&
      match l.answer
      case GetFailed(e) => e == NotFound
      case Present(now) =>
        (now.uid != "" && pod.uid != "" && now.uid != pod.uid) || now.phase.Succeeded? || now.phase.Failed?
  }

  predicate HasBlocked(f: Flags, protected: seq<Workload>, pods: seq<Pod>) {
    exists p :: p in pods && !Protected(protected, p) && Blocks(f, p)
  }

  function Times(w: Write, n: nat): (ws: seq<Write>)
    ensures |ws| == n && forall x :: x in ws ==> x == w
  {
    if n == 0 then [] else Times(w, n - 1) + [w]
  }

  lemma OneMoreRemoval(f: Flags, pods: seq<Pod>, i: nat, writes: seq<Write>, more: seq<Write>)
    requires i < |pods| && OnlyRemovals(f, pods[..i], writes) && forall w :: w in more ==> w == Removal(f, pods[i])
    ensures OnlyRemovals(f, pods[..i + 1], writes + more)
  {
    assert pods[..i + 1] == pods[..i] + [pods[i]];
    assert forall p :: p in pods[..i] ==> p in pods[..i + 1];
    assert pods[i] in pods[..i + 1];
  }

  ghost predicate OnlyRemovals(f: Flags, pods: seq<Pod>, writes: seq<Write>) {
    forall w :: w in writes ==> exists p :: p in pods && w == Removal(f, p)
  }

  predicate AllRemoved(f: Flags, pods: seq<Pod>, writes: seq<Write>) {
    forall p :: p in pods ==> Removal(f, p) in writes
  }

  /** The environment lets the pod be removed: a plain deletion that works or finds it gone, or an
      eviction that does, retries included. */
  ghost predicate RemovalWorks(f: Flags, pod: Pod, interval: int, timeout: int, env: Env) {
    if Removal(f, pod).Delete? then env.deletion(pod).None? || env.deletion(pod) == Some(NotFound)
    else
      exists r: Backoff.Outcome, starts :: Eviction(pod, interval, timeout, env, r, starts) && (r.Evicted? || r.Gone?)
  }

  ghost predicate RemovalFails(f: Flags, pod: Pod, interval: int, timeout: int, env: Env) {
    if Removal(f, pod).Delete? then env.deletion(pod).Some? && env.deletion(pod) != Some(NotFound)
    else
      exists r: Backoff.Outcome, starts :: Eviction(pod, interval, timeout, env, r, starts) && !r.Evicted? && !r.Gone?
  }

  ghost predicate Eviction(pod: Pod, interval: int, timeout: int, env: Env, r: Backoff.Outcome, starts: seq<int>) {
    Backoff.Attempted(Backoff.OrDefault(interval, Backoff.DEFAULT_INTERVAL),
                      Backoff.OrDefault(timeout, Backoff.DEFAULT_TIMEOUT), env.attempts(pod), r, starts)
  }

  /** A removal either works or fails, and which of the two is a matter of the environment alone. */
  lemma {:induction false} WorksOrFails(f: Flags, pod: Pod, interval: int, timeout: int, env: Env)
    ensures RemovalWorks(f, pod, interval, timeout, env) <==> !RemovalFails(f, pod, interval, timeout, env)
  {
    if Removal(f, pod).Evict? {
      var b := Backoff.OrDefault(interval, Backoff.DEFAULT_INTERVAL);
      var t := Backoff.OrDefault(timeout, Backoff.DEFAULT_TIMEOUT);
      var so: seq<int> := [];
      var r, s := Backoff.AttemptsExist(b, t, env.attempts(pod), so);
      assert Eviction(pod, interval, timeout, env, r, s);
      forall r': Backoff.Outcome, s' | Eviction(pod, interval, timeout, env, r', s') ensures r' == r {
        Backoff.AttemptsDetermined(b, t, env.attempts(pod), r, s, r', s');
      }
    }
  }

  /** Removals stopped at a pod that could not be removed: no later pod was touched. */
  ghost predicate StoppedAt(f: Flags, pods: seq<Pod>, interval: int, timeout: int, env: Env,
                            writes: seq<Write>, i: nat) {
    i < |pods| && RemovalFails(f, pods[i], interval, timeout, env) && OnlyRemovals(f, pods[..i + 1], writes)
  }

  /** Removes the evictable pods one after another, stopping at the first failure. */
  method RemovePods(f: Flags, pods: seq<Pod>, interval: int, timeout: int, env: Env)
    returns (ok: bool, writes: seq<Write>)
    ensures OnlyRemovals(f, pods, writes)
    ensures ok <==> forall p :: p in pods ==> RemovalWorks(f, p, interval, timeout, env)
    ensures ok ==> AllRemoved(f, pods, writes)
    ensures !ok ==> exists i :: StoppedAt(f, pods, interval, timeout, env, writes, i)
  {
    writes := [];
    for i := 0 to |pods|
      invariant OnlyRemovals(f, pods[..i], writes)
      invariant forall p :: p in pods[..i] ==> RemovalWorks(f, p, interval, timeout, env)
      invariant AllRemoved(f, pods[..i], writes)
    {
      var pod := pods[i];
      assert pod in pods && pods[..i + 1] == pods[..i] + [pod];
      ghost var before := writes;
      if f.forceDeleteStandalone && pod.owners == [] {
        OneMoreRemoval(f, pods, i, writes, [Delete(pod.namespace, pod.name)]);
        writes := writes + [Delete(pod.namespace, pod.name)];
        var answer := env.deletion(pod);
        if answer.Some? && answer.value != NotFound {
          assert StoppedAt(f, pods, interval, timeout, env, writes, i);
          WorksOrFails(f, pod, interval, timeout, env);
          return false, writes;
        }
      } else {
        var r, starts := Backoff.EvictWithPDBRetry(interval, timeout, env.attempts(pod));
        OneMoreRemoval(f, pods, i, writes, Times(Evict(pod.namespace, pod.name), |starts|));
        writes := writes + Times(Evict(pod.namespace, pod.name), |starts|);
        assert Eviction(pod, interval, timeout, env, r, starts);
        if !r.Evicted? && !r.Gone? {
          assert StoppedAt(f, pods, interval, timeout, env, writes, i);
          WorksOrFails(f, pod, interval, timeout, env);
          return false, writes;
        }
      }
      assert writes[|writes| - 1] == Removal(f, pod);
      assert forall w :: w in before ==> w in writes;
    }
    assert pods[..|pods|] == pods;
    ok := true;
  }

  /** Sorts the listing into what blocks, what is evicted and what is already on its way out. */
  method Plan(f: Flags, protected: seq<Workload>, pods: seq<Pod>)
    returns (blocked: seq<BlockedPod>, evictable: seq<Pod>, waiting: seq<Pod>)
    ensures blocked != [] <==> HasBlocked(f, protected, pods)
    ensures forall p :: p in evictable <==> p in pods && !Protected(protected, p) && MayBeRemoved(f, p)
    ensures forall p :: p in waiting <==> p in pods && !Protected(protected, p) && OnItsWayOut(f, p)
  {
    var candidates := ExcludeProtectedPods(protected, pods);
    UnprotectedMembers(protected, pods);
    blocked := BlockedEvictionPods(f, candidates);
    assert |blocked| > 0 ==> blocked[0] in blocked;
    evictable := FilterEvictable(f, candidates);
    waiting := PodsPendingDeletion(f, candidates);
  }

  ghost predicate AllJustified(f: Flags, protected: seq<Workload>, pods: seq<Pod>, writes: seq<Write>) {
    forall w :: w in writes ==> Justified(f, protected, pods, w)
  }

  ghost predicate AllSettled(f: Flags, protected: seq<Workload>, pods: seq<Pod>, log: seq<Look>) {
    forall p :: p in pods ==> Settled(f, protected, log, p)
  }

  /** Why the step fails: a blocked pod, a removal that does not work, or pods that do not go away. */
  ghost predicate HasCause(f: Flags, protected: seq<Workload>, interval: int, timeout: int, env: Env, log: seq<Look>)
    requires env.listing.Ok?
  {
    || HasBlocked(f, protected, env.listing.value)
    || (exists p :: p in env.listing.value && !Protected(protected, p) && RemovalFails(f, p, interval, timeout, env))
    || (exists e :: Fatal(e, log))
    || (exists awaited :: OnItsWay(f, protected, env.listing.value, awaited) && Overdue(awaited, env.polls, log))
  }

  /** The pods whose deletion the step waits for. */
  ghost predicate OnItsWay(f: Flags, protected: seq<Workload>, pods: seq<Pod>, awaited: seq<Pod>) {
    forall p :: p in awaited <==>
      p in pods && !Protected(protected, p) && (MayBeRemoved(f, p) || OnItsWayOut(f, p))
  }

  /** Evicts what is left on the node. Outside dry run: a single blocked pod stops the step before any
      write; only evictable, unprotected pods of the listing are ever removed; and a nil return means
      every listed pod is settled. */
  method EvictRemaining(f: Flags, protected: seq<Workload>, dryRun: bool, interval: int, timeout: int, env: Env)
    returns (ok: bool, writes: seq<Write>, log: seq<Look>)
    ensures Genuine(log, env.polls)
    ensures env.listing.Err? ==> !ok && writes == []
    ensures dryRun ==> writes == [] && ok == env.listing.Ok?
    ensures env.listing.Ok? ==> AllJustified(f, protected, env.listing.value, writes)
    ensures env.listing.Ok? && !dryRun && HasBlocked(f, protected, env.listing.value) ==> !ok && writes == []
    ensures ok && !dryRun ==> forall p ::
      p in env.listing.value && !Protected(protected, p) && MayBeRemoved(f, p) ==> Removal(f, p) in writes
    ensures ok && !dryRun && UidsIdentify(env.listing.value) ==> AllSettled(f, protected, env.listing.value, log)
    ensures !ok && !dryRun && env.listing.Ok? ==> HasCause(f, protected, interval, timeout, env, log)
  {
    ok, writes, log := false, [], [];
    if env.listing.Err? {
      return;
    }
    var pods := env.listing.value;
    var blocked, evictable, waiting := Plan(f, protected, pods);
    if dryRun {
      return true, [], [];
    }
    if |blocked| > 0 {
      return;
    }
    if |evictable| > 0 {
      ok, writes := RemovePods(f, evictable, interval, timeout, env);
      if !ok {
        return;
      }
    }
    assert OnItsWay(f, protected, pods, waiting + evictable);
    ok, log := AwaitDeletion(waiting + evictable, env.polls);
    if ok && UidsIdentify(pods) {
      AwaitedPodsSettled(f, protected, pods, waiting + evictable, log, |env.polls|);
    }
  }

  method AwaitDeletion(pods: seq<Pod>, polls: PodPolls) returns (ok: bool, log: seq<Look>)
    ensures Genuine(log, polls)
    ensures ok ==> AllSeenGone(log, pods, |polls|)
    ensures !ok ==> (exists e :: Fatal(e, log)) || Overdue(pods, polls, log)
  {
    var r;
    ghost var history;
    r, log, history := WaitForPodsDeleted(pods, polls);
    ok := r == AllGone;
  }

  lemma AwaitedPodsSettled(f: Flags, protected: seq<Workload>, pods: seq<Pod>, awaited: seq<Pod>,
                           log: seq<Look>, n: nat)
    requires UidsIdentify(pods) && !HasBlocked(f, protected, pods) && AllSeenGone(log, awaited, n)
    requires OnItsWay(f, protected, pods, awaited)
    ensures AllSettled(f, protected, pods, log)
  {
    forall p | p in pods ensures Settled(f, protected, log, p) {
      if p in awaited {
        AwaitedAsItself(awaited, p);
        assert SeenGone(log, Awaited(awaited), AwaitKey(p), n);
        var l :| l in log && l.poll < n && l.key == p.uid && Resolves(l.answer, p);
        ResolvesExactly(l.answer, p);
      }
    }
  }
}
