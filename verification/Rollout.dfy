/** Waiting for a restart to roll out: polls that act on the first decisive observation. */
module Rollout {
  import opened Kube
  import opened Labels
  import opened Workloads

  // ----- observations -----

  datatype ContainerStatus = ContainerStatus(waiting: Option<string>, terminatedBefore: bool)

  /** A pod as a rollout check sees it. */
  datatype PodStatus = PodStatus(
    namespace: string, name: string, init: seq<ContainerStatus>, containers: seq<ContainerStatus>)

  type PodList = Result<seq<PodStatus>, ApiError>

  datatype Condition = Condition(kind: string, status: string, reason: string)

  datatype Deployment = Deployment(
    uid: string, generation: int, revision: string, replicas: Option<int>, selector: Option<LabelSelector>,
    observedGeneration: int, updated: int, ready: int, available: int, unavailable: int, conditions: seq<Condition>)

  datatype ReplicaSet = ReplicaSet(owners: seq<string>, revision: string, selector: Option<LabelSelector>)

  datatype StatefulSet = StatefulSet(
    replicas: Option<int>, selector: Option<LabelSelector>, observedGeneration: int,
    updateRevision: string, currentRevision: string, updated: int, current: int, ready: int)

  /** What the API server answers during one poll of a Deployment. */
  datatype DeploymentTick = DeploymentTick(
    deployment: Result<Deployment, ApiError>,
    replicaSets: Result<seq<ReplicaSet>, ApiError>,
    pods: LabelSelector -> PodList)

  datatype StatefulSetTick = StatefulSetTick(statefulSet: Result<StatefulSet, ApiError>, pods: LabelSelector -> PodList)

  datatype Cause =
    | ApiFailed(error: ApiError)
    | Stalled
    | SelectorUnresolved(error: ApiError)
    | PodCheckFailed
    | BadPod(namespace: string, name: string, reason: string)
    | DeadlineReached

  datatype Verdict = Continue | Complete | Fail(cause: Cause)

  /** The revision last resolved, and the selector used for the bad-pod check; both start empty. */
  datatype Cache = Cache(revision: string, selector: Option<LabelSelector>)

  const NO_CACHE := Cache("", None)

  function Desired(replicas: Option<int>): int {
    if replicas.Some? then replicas.value else 1
  }

  // ----- pods that will never become ready -----

  function BadWaitingReason(cs: ContainerStatus): Option<string> {
    match cs.waiting
    case None => None
    case Some(r) =>
      if r == "CrashLoopBackOff" then (if cs.terminatedBefore then Some(r) else None)
      else if r == "ImagePullBackOff" || r == "ErrImagePull" then Some(r)
      else None
  }

  predicate BadContainer(cs: ContainerStatus) {
    BadWaitingReason(cs).Some?
  }

  predicate Stuck(pod: PodStatus) {
    exists i :: 0 <= i < |pod.init + pod.containers| && BadContainer((pod.init + pod.containers)[i])
  }

  /** A pod is stuck when a container, init or not, waits on an image that cannot be pulled, or crash-loops
      after it has exited before. */
  lemma {:induction false} StuckExactly(pod: PodStatus)
    ensures Stuck(pod) <==> exists cs ::
      (cs in pod.init || cs in pod.containers) &&
      (cs.waiting == Some("ImagePullBackOff") || cs.waiting == Some("ErrImagePull") ||
       (cs.waiting == Some("CrashLoopBackOff") && cs.terminatedBefore))
  {
    var all := pod.init + pod.containers;
    assert forall cs :: BadContainer(cs) <==>
      cs.waiting == Some("ImagePullBackOff") || cs.waiting == Some("ErrImagePull") ||
      (cs.waiting == Some("CrashLoopBackOff") && cs.terminatedBefore);
    assert forall cs :: cs in all <==> cs in pod.init || cs in pod.containers;
    assert forall i :: 0 <= i < |all| ==> all[i] in all;
  }

  /** What the bad-pod check concludes: no selector means no check at all. */
  datatype PodCheck = Clean | Bad(cause: Cause) | CheckFailed(transient: bool)

  predicate ValidSelector(sel: LabelSelector) {
    AsSelector(sel).Ok?
  }

  /** `cause` names a stuck pod of the list. */
  ghost predicate Names(cause: Cause, listed: seq<PodStatus>) {
    cause.BadPod? && exists p :: p in listed && Stuck(p) && cause.namespace == p.namespace && cause.name == p.name
  }

  predicate NoneStuck(listed: seq<PodStatus>) {
    forall p :: p in listed ==> !Stuck(p)
  }

  /** Reports the first container, init containers first, that is stuck for good. */
  function FirstBad(cs: seq<ContainerStatus>): (r: Option<string>)
    ensures r.Some? <==> exists i :: 0 <= i < |cs| && BadContainer(cs[i])
  {
    if cs == [] then None
    else if BadContainer(cs[0]) then BadWaitingReason(cs[0])
    else FirstBad(cs[1..])
  }

  function FirstStuck(pods: seq<PodStatus>): (r: Option<Cause>)
    ensures r.None? <==> NoneStuck(pods)
    ensures r.Some? ==> Names(r.value, pods)
  {
    if pods == [] then None
    else
      var reason := FirstBad(pods[0].init + pods[0].containers);
      if reason.Some? then assert Stuck(pods[0]); Some(BadPod(pods[0].namespace, pods[0].name, reason.value))
      else FirstStuck(pods[1..])
  }

  /** The selector is usable and its pods can be listed. */
  predicate Listed(sel: Option<LabelSelector>, pods: LabelSelector -> PodList) {
    sel.Some? && ValidSelector(sel.value) && pods(sel.value).Ok?
  }

  function FindBadPodState(sel: Option<LabelSelector>, pods: LabelSelector -> PodList): (check: PodCheck)
    ensures check.Clean? <==> sel.None? || (Listed(sel, pods) && NoneStuck(pods(sel.value).value))
    ensures check.Bad? ==> Listed(sel, pods) && Names(check.cause, pods(sel.value).value)
    ensures check.CheckFailed? <==> sel.Some? && !Listed(sel, pods)
    ensures check == CheckFailed(true) <==> sel.Some? && ValidSelector(sel.value) && Passing(pods(sel.value))
  {
    if sel.None? then Clean
    else if !ValidSelector(sel.value) then CheckFailed(false)
    else match pods(sel.value)
      case Err(e) => CheckFailed(e.IsTransient())
      case Ok(listed) => if FirstStuck(listed).Some? then Bad(FirstStuck(listed).value) else Clean
  }

  // ----- Deployments -----

  const STALLED := Condition("Progressing", "False", "ProgressDeadlineExceeded")

  predicate IsStalled(dep: Deployment) {
    exists i :: 0 <= i < |dep.conditions| && dep.conditions[i] == STALLED
  }

  /** The selector of the ReplicaSet of the Deployment's current revision, or the Deployment's own
      when that ReplicaSet cannot be told. */
  function NewReplicaSetSelector(dep: Deployment, listed: Result<seq<ReplicaSet>, ApiError>)
    : Result<Option<LabelSelector>, ApiError>
  {
    if dep.revision == "" || dep.selector.None? || !ValidSelector(dep.selector.value) then Ok(dep.selector)
    else match listed
      case Err(e) => Err(e)
      case Ok(sets) => Ok(CurrentSelector(dep, sets))
  }

  function CurrentSelector(dep: Deployment, sets: seq<ReplicaSet>): Option<LabelSelector> {
    if sets == [] then dep.selector
    else if IsCurrent(dep, sets[0]) then sets[0].selector
    else CurrentSelector(dep, sets[1..])
  }

  /** The first ReplicaSet that the Deployment owns at its revision decides, and the Deployment itself if
      there is none, or no revision, or no selector to list them by. */
  lemma {:induction false} FirstCurrentDecides(dep: Deployment, sets: seq<ReplicaSet>, n: nat)
    requires n <= |sets|
    requires forall j :: 0 <= j < n ==> !(dep.uid in sets[j].owners && sets[j].revision == dep.revision)
    requires n < |sets| ==> dep.uid in sets[n].owners && sets[n].revision == dep.revision
    ensures CurrentSelector(dep, sets) == if n < |sets| then sets[n].selector else dep.selector
    ensures NewReplicaSetSelector(dep, Ok(sets)) == Ok(
      if n < |sets| && dep.revision != "" && dep.selector.Some? && AsSelector(dep.selector.value).Ok?
      then sets[n].selector
      else dep.selector)
    ensures forall e ::
      NewReplicaSetSelector(dep, Err(e)) ==
        if dep.revision != "" && dep.selector.Some? && AsSelector(dep.selector.value).Ok? then Err(e)
        else Ok(dep.selector)
  {
    if n > 0 {
      assert sets[1..] == sets[1..][..n - 1] + sets[1..][n - 1..];
      FirstCurrentDecides(dep, sets[1..], n - 1);
    }
  }

  predicate IsCurrent(dep: Deployment, rs: ReplicaSet) {
    dep.uid in rs.owners && rs.revision == dep.revision
  }

  /** The poll got the Deployment, its status covers the target generation, and it is not stalled. */
  predicate Gate(target: int, t: DeploymentTick) {
    t.deployment.Ok? && t.deployment.value.observedGeneration >= target && !IsStalled(t.deployment.value)
  }

  function Revision(t: DeploymentTick): string
    requires t.deployment.Ok?
  {
    t.deployment.value.revision
  }

  function Resolve(t: DeploymentTick): Result<Option<LabelSelector>, ApiError>
    requires t.deployment.Ok?
  {
    NewReplicaSetSelector(t.deployment.value, t.replicaSets)
  }

  /** Every count agrees with the desired replicas on a status that covers the newest generation. */
  predicate RolledOut(dep: Deployment) {
    var desired := Desired(dep.replicas);
    dep.updated == desired && dep.ready == desired && dep.available == desired && dep.unavailable == 0 &&
    dep.observedGeneration >= dep.generation
  }

  /** The cache after a poll. A failed listing clears the selector but keeps the old revision. */
  function CacheAfter(target: int, cache: Cache, t: DeploymentTick): Cache {
    if !Gate(target, t) || Revision(t) == cache.revision then cache
    else match Resolve(t)
      case Err(_) => cache.(selector := None)
      case Ok(sel) => Cache(Revision(t), sel)
  }

  /** What one poll decides, given the cache it starts with. */
  function Judge(target: int, cache: Cache, t: DeploymentTick): Verdict {
    match t.deployment
    case Err(e) => if e.IsTransient() then Continue else Fail(ApiFailed(e))
    case Ok(dep) =>
      if dep.observedGeneration < target then Continue
      else if IsStalled(dep) then Fail(Stalled)
      else if dep.revision != cache.revision && Resolve(t).Err? then
        var e := Resolve(t).error;
        if e.IsTransient() then Continue else Fail(SelectorUnresolved(e))
      else match FindBadPodState(CacheAfter(target, cache, t).selector, t.pods)
        case CheckFailed(transient) => if transient then Continue else Fail(PodCheckFailed)
        case Bad(cause) => Fail(cause)
        case Clean => if RolledOut(dep) then Complete else Continue
  }

  /** The cache before poll `n`. */
  function CacheBefore(target: int, ticks: seq<DeploymentTick>, n: nat): Cache
    requires n <= |ticks|
  {
    if n == 0 then NO_CACHE else CacheAfter(target, CacheBefore(target, ticks, n - 1), ticks[n - 1])
  }

  function VerdictAt(target: int, ticks: seq<DeploymentTick>, n: nat): Verdict
    requires n < |ticks|
  {
    Judge(target, CacheBefore(target, ticks, n), ticks[n])
  }

  /** Polls until an observation decides; `ticks` are the observations made before the deadline. */
  method WaitForDeploymentRollout(target: int, ticks: seq<DeploymentTick>) returns (v: Verdict, polls: nat)
    ensures polls <= |ticks| && v != Continue
    ensures forall k :: 0 <= k < polls - 1 ==> VerdictAt(target, ticks, k) == Continue
    ensures if v == Fail(DeadlineReached) then
              polls == |ticks| && forall k :: 0 <= k < polls ==> VerdictAt(target, ticks, k) == Continue
            else polls > 0 && v == VerdictAt(target, ticks, polls - 1)
    ensures v == Complete ==>
      polls > 0 && ticks[polls - 1].deployment.Ok? &&
      var dep := ticks[polls - 1].deployment.value;
      var desired := if dep.replicas.Some? then dep.replicas.value else 1;
      dep.updated == desired && dep.ready == desired && dep.available == desired && dep.unavailable == 0 &&
      dep.observedGeneration >= target && dep.observedGeneration >= dep.generation
  {
    var cachedRevision := "";
    var cachedSelector: Option<LabelSelector> := None;
    polls := 0;
    while polls < |ticks|
      invariant 0 <= polls <= |ticks|
      invariant Cache(cachedRevision, cachedSelector) == CacheBefore(target, ticks, polls)
      invariant forall k :: 0 <= k < polls ==> VerdictAt(target, ticks, k) == Continue
    {
      var t := ticks[polls];
      ghost var before := Cache(cachedRevision, cachedSelector);
      polls := polls + 1;
      assert Judge(target, before, t) == VerdictAt(target, ticks, polls - 1);
      if t.deployment.Err? {
        if t.deployment.error.IsTransient() {
          continue;
        }
        return Fail(ApiFailed(t.deployment.error)), polls;
      }
      var dep := t.deployment.value;
      if dep.observedGeneration < target {
        continue;
      }
      for i := 0 to |dep.conditions|
        invariant forall k :: 0 <= k < i ==> dep.conditions[k] != STALLED
      {
        if dep.conditions[i] == STALLED {
          return Fail(Stalled), polls;
        }
      }
      if dep.revision != cachedRevision {
        match NewReplicaSetSelector(dep, t.replicaSets) {
          case Err(e) =>
            cachedSelector := None;
            if e.IsTransient() {
              continue;
            }
            return Fail(SelectorUnresolved(e)), polls;
          case Ok(sel) =>
            cachedSelector := sel;
            cachedRevision := dep.revision;
        }
      }
      match FindBadPodState(cachedSelector, t.pods) {
        case CheckFailed(transient) =>
          if transient {
            continue;
          }
          return Fail(PodCheckFailed), polls;
        case Bad(cause) =>
          return Fail(cause), polls;
        case Clean =>
          if RolledOut(dep) {
            return Complete, polls;
          }
      }
    }
    v := Fail(DeadlineReached);
  }

  /** A nil return means the full completion condition, on a status at or past both the target and
      the newest generation, of a Deployment that is not stalled and shows no stuck pod under the
      selector in use; and every observation like that completes the wait. */
  lemma {:induction false} CompleteExactly(target: int, cache: Cache, t: DeploymentTick)
    ensures Judge(target, cache, t) == Complete <==>
      t.deployment.Ok? &&
      var dep := t.deployment.value;
      var desired := if dep.replicas.Some? then dep.replicas.value else 1;
      dep.updated == desired && dep.ready == desired && dep.available == desired && dep.unavailable == 0 &&
      dep.observedGeneration >= target && dep.observedGeneration >= dep.generation &&
      (forall c :: c in dep.conditions ==>
        !(c.kind == "Progressing" && c.status == "False" && c.reason == "ProgressDeadlineExceeded")) &&
      (dep.revision != cache.revision ==> Resolve(t).Ok?) &&
      FindBadPodState(CacheAfter(target, cache, t).selector, t.pods) == Clean
  {
    if t.deployment.Ok? {
      StalledMeans(t.deployment.value);
    }
  }

  lemma StalledMeans(dep: Deployment)
    ensures IsStalled(dep) <==> exists c ::
      c in dep.conditions && c.kind == "Progressing" && c.status == "False" && c.reason == "ProgressDeadlineExceeded"
  {
    assert forall c: Condition ::
      c.kind == "Progressing" && c.status == "False" && c.reason == "ProgressDeadlineExceeded" ==> c == STALLED;
  }

  /** The wait fails on the Deployment itself exactly when a recent status reports an exceeded progress
      deadline, and on the GET exactly when its error is none of the four that may pass. */
  lemma {:induction false} FailureExactly(target: int, cache: Cache, t: DeploymentTick)
    ensures Judge(target, cache, t) == Fail(Stalled) <==>
      t.deployment.Ok? && t.deployment.value.observedGeneration >= target &&
      exists c :: c in t.deployment.value.conditions &&
        c.kind == "Progressing" && c.status == "False" && c.reason == "ProgressDeadlineExceeded"
    ensures forall e :: Judge(target, cache, t) == Fail(ApiFailed(e)) <==>
      t.deployment == Err(e) && !(e.InternalError? || e.ServerTimeout? || e.Timeout? || e.TooManyRequests?)
  {
    if t.deployment.Ok? {
      StalledMeans(t.deployment.value);
    }
  }

  /** A status older than the target generation, or an absorbed API error, decides nothing. */
  lemma StaleStatusDecidesNothing(target: int, cache: Cache, t: DeploymentTick)
    requires match t.deployment
      case Ok(dep) => dep.observedGeneration < target
      case Err(e) => e.InternalError? || e.ServerTimeout? || e.Timeout? || e.TooManyRequests?
    ensures Judge(target, cache, t) == Continue && CacheAfter(target, cache, t) == cache
  {}

  /** The observations whose status is recent enough, and not stalled. */
  function Recent(target: int, ticks: seq<DeploymentTick>): seq<DeploymentTick> {
    if ticks == [] then []
    else
      var n := |ticks| - 1;
      Recent(target, ticks[..n]) + if Gate(target, ticks[n]) then [ticks[n]] else []
  }

  lemma {:induction false} CacheOfPrefix(target: int, ticks: seq<DeploymentTick>, more: seq<DeploymentTick>, n: nat)
    requires n <= |ticks|
    ensures CacheBefore(target, ticks + more, n) == CacheBefore(target, ticks, n)
  {
    if n > 0 {
      CacheOfPrefix(target, ticks, more, n - 1);
    }
  }

  lemma {:induction false} RecentCache(target: int, ticks: seq<DeploymentTick>)
    ensures CacheBefore(target, ticks, |ticks|) == CacheBefore(target, Recent(target, ticks), |Recent(target, ticks)|)
  {
    if ticks != [] {
      var n := |ticks| - 1;
      var front, last := ticks[..n], ticks[n];
      RecentCache(target, front);
      assert ticks == front + [last];
      CacheOfPrefix(target, front, [last], n);
      if Gate(target, last) {
        var recent := Recent(target, front);
        CacheOfPrefix(target, recent, [last], |recent|);
        assert Recent(target, ticks) == recent + [last];
        assert (recent + [last])[|recent|] == last;
      } else {
        assert Recent(target, ticks) == Recent(target, front);
      }
    }
  }

  /** Stale statuses and failed GETs leave no trace: whatever a poll decides, it would have decided the
      same had they never been observed. */
  lemma {:induction false} StaleStatusLeavesNoTrace(target: int, ticks: seq<DeploymentTick>, n: nat)
    requires n < |ticks|
    ensures var recent := Recent(target, ticks[..n]);
      VerdictAt(target, ticks, n) == VerdictAt(target, recent + [ticks[n]], |recent|)
  {
    var recent := Recent(target, ticks[..n]);
    RecentCache(target, ticks[..n]);
    assert ticks == ticks[..n] + ticks[n..];
    CacheOfPrefix(target, ticks[..n], ticks[n..], n);
    CacheOfPrefix(target, recent, [ticks[n]], |recent|);
  }

  /** A fail-fast on pod state blames a stuck pod of the listing, on a status that is not stale. */
  lemma BadPodMeansStuckPod(target: int, cache: Cache, t: DeploymentTick, cause: Cause)
    requires Judge(target, cache, t) == Fail(cause) && cause.BadPod?
    ensures Gate(target, t) && CacheAfter(target, cache, t).selector.Some?
    ensures var sel := CacheAfter(target, cache, t).selector.value;
      t.pods(sel).Ok? && Names(cause, t.pods(sel).value)
  {}

  // ----- which selector the check uses -----

  /** The poll before `n` at which a selector was last resolved: one that passed the gate, showed another
      revision than the one resolved before it, none at first, and whose ReplicaSets could be listed. */
  function LastResolved(target: int, ticks: seq<DeploymentTick>, n: nat): (p: Option<nat>)
    requires n <= |ticks|
    ensures p.Some? ==> p.value < n && Gate(target, ticks[p.value]) && Resolve(ticks[p.value]).Ok?
  {
    if n == 0 then None
    else
      var before := LastResolved(target, ticks, n - 1);
      var known := if before.Some? then Revision(ticks[before.value]) else "";
      var t := ticks[n - 1];
      if Gate(target, t) && Revision(t) != known && Resolve(t).Ok? then Some(n - 1) else before
  }

  /** The observations since poll `p` that passed the gate all showed the revision resolved at `p`. */
  predicate SameRevisionSince(target: int, ticks: seq<DeploymentTick>, p: nat, n: nat)
    requires p < n <= |ticks| && Gate(target, ticks[p])
  {
    forall j :: p < j < n && Gate(target, ticks[j]) ==> Revision(ticks[j]) == Revision(ticks[p])
  }

  /** For every sequence of observations: the selector in use is the one computed when the cached
      revision was resolved, unless some later observation showed another revision and failed to
      resolve it; then no selector is left and the check is skipped. */
  lemma {:induction false} CachedSelectorExactly(target: int, ticks: seq<DeploymentTick>, n: nat)
    requires n <= |ticks|
    ensures CacheBefore(target, ticks, n) ==
      match LastResolved(target, ticks, n)
      case None => NO_CACHE
      case Some(p) =>
        Cache(Revision(ticks[p]), if SameRevisionSince(target, ticks, p, n) then Resolve(ticks[p]).value else None)
  {
    if n > 0 {
      CachedSelectorExactly(target, ticks, n - 1);
      var p' := LastResolved(target, ticks, n - 1);
      var p := LastResolved(target, ticks, n);
      if p == p' && p.Some? {
        assert SameRevisionSince(target, ticks, p.value, n) <==>
          SameRevisionSince(target, ticks, p.value, n - 1) &&
          (Gate(target, ticks[n - 1]) ==> Revision(ticks[n - 1]) == Revision(ticks[p.value]));
      }
    }
  }

  /** Revisions never recur: between two observations of one revision no other is seen. */
  predicate NoRecurrence(target: int, ticks: seq<DeploymentTick>, n: nat)
    requires n <= |ticks|
  {
    forall i, j, k | 0 <= i < j < k < n && Gate(target, ticks[i]) && Gate(target, ticks[j]) && Gate(target, ticks[k]) ::
      Revision(ticks[i]) == Revision(ticks[k]) ==> Revision(ticks[j]) == Revision(ticks[i])
  }

  /** If revisions never recur, then once the present, non-empty revision has been resolved, the selector
      in use is the one computed when it appeared. */
  lemma {:induction false} SelectorOfCurrentRevision(target: int, ticks: seq<DeploymentTick>, n: nat) returns (p: nat)
    requires n < |ticks| && NoRecurrence(target, ticks, n + 1)
    requires Gate(target, ticks[n]) && Revision(ticks[n]) != ""
    requires LastResolved(target, ticks, n + 1).Some?
    requires Revision(ticks[LastResolved(target, ticks, n + 1).value]) == Revision(ticks[n])
    ensures p <= n && Gate(target, ticks[p]) && Revision(ticks[p]) == Revision(ticks[n]) && Resolve(ticks[p]).Ok?
    ensures CacheBefore(target, ticks, n + 1).selector == Resolve(ticks[p]).value
    ensures SameRevisionSince(target, ticks, p, n + 1)
  {
    CachedSelectorExactly(target, ticks, n + 1);
    p := LastResolved(target, ticks, n + 1).value;
    forall j | p < j < n + 1 && Gate(target, ticks[j])
      ensures Revision(ticks[j]) == Revision(ticks[p])
    {
      if j < n {
        assert p < j < n;
      }
    }
  }

  /** What a nil return is worth: the Deployment is rolled out at or past the target, and no pod is stuck
      under the selector resolved when its present revision first appeared. */
  lemma {:induction false} CompletionChecksCurrentRevision(target: int, ticks: seq<DeploymentTick>, n: nat)
    returns (p: nat)
    requires n < |ticks| && NoRecurrence(target, ticks, n + 1)
    requires VerdictAt(target, ticks, n) == Complete && Revision(ticks[n]) != ""
    ensures Gate(target, ticks[n]) && RolledOut(ticks[n].deployment.value)
    ensures p <= n && Gate(target, ticks[p]) && Revision(ticks[p]) == Revision(ticks[n]) && Resolve(ticks[p]).Ok?
    ensures SameRevisionSince(target, ticks, p, n + 1)
    ensures FindBadPodState(Resolve(ticks[p]).value, ticks[n].pods) == Clean
  {
    CompleteExactly(target, CacheBefore(target, ticks, n), ticks[n]);
    CachedSelectorExactly(target, ticks, n + 1);
    p := SelectorOfCurrentRevision(target, ticks, n);
  }

  /** Without that assumption a stuck pod can be missed: a listing that fails while another revision is
      shown drops the selector, and the first revision's return then finds nothing to check. */
  lemma RecurrenceCanHideStuckPods() returns (target: int, ticks: seq<DeploymentTick>)
    ensures |ticks| == 3
    ensures VerdictAt(target, ticks, 0) == Continue && VerdictAt(target, ticks, 1) == Continue
    ensures VerdictAt(target, ticks, 2) == Complete
    ensures ticks[2].deployment.Ok? && Resolve(ticks[2]).Ok?
    ensures FindBadPodState(Resolve(ticks[2]).value, ticks[2].pods).Bad?
  {
    target := 1;
    var sel := LabelSelector(map["app" := "api"], [], false);
    var waiting := Deployment("u", 1, "1", Some(1), Some(sel), 1, 0, 0, 0, 1, []);
    var complete := Deployment("u", 1, "1", Some(1), Some(sel), 1, 1, 1, 1, 0, []);
    var container := ContainerStatus(Some("ErrImagePull"), false);
    var pod := PodStatus("default", "api-0", [], [container]);
    ticks := [
      DeploymentTick(Ok(waiting), Ok([]), _ => Ok([])),
      DeploymentTick(Ok(waiting.(revision := "2")), Err(InternalError), _ => Ok([])),
      DeploymentTick(Ok(complete), Ok([]), _ => Ok([pod]))];
    assert ValidSelector(sel);
    assert "1" != "2" && "1" != "" && "2" != "";
    assert CacheBefore(target, ticks, 0) == NO_CACHE;
    assert CacheBefore(target, ticks, 1) == Cache("1", Some(sel));
    assert CacheBefore(target, ticks, 2) == Cache("1", None);
    assert (pod.init + pod.containers)[0] == container && BadContainer(container);
    assert Stuck(pod) && pod in [pod];
  }

  // ----- StatefulSets -----

  predicate StsGate(target: int, t: StatefulSetTick) {
    t.statefulSet.Ok? && t.statefulSet.value.observedGeneration >= target
  }

  predicate StsRolledOut(sts: StatefulSet) {
    var desired := Desired(sts.replicas);
    sts.updateRevision != "" && sts.updateRevision == sts.currentRevision &&
    sts.updated == desired && sts.current == desired && sts.ready == desired
  }

  function StsCacheAfter(target: int, cache: Cache, t: StatefulSetTick): Cache {
    if !StsGate(target, t) || t.statefulSet.value.updateRevision == cache.revision then cache
    else
      var sts := t.statefulSet.value;
      Cache(sts.updateRevision, NewRevisionSelector(sts.selector, sts.updateRevision))
  }

  function StsJudge(target: int, cache: Cache, t: StatefulSetTick): Verdict {
    match t.statefulSet
    case Err(e) => if e.IsTransient() then Continue else Fail(ApiFailed(e))
    case Ok(sts) =>
      if sts.observedGeneration < target then Continue
      else match FindBadPodState(StsCacheAfter(target, cache, t).selector, t.pods)
        case CheckFailed(transient) => if transient then Continue else Fail(PodCheckFailed)
        case Bad(cause) => Fail(cause)
        case Clean => if StsRolledOut(sts) then Complete else Continue
  }

  function StsCacheBefore(target: int, ticks: seq<StatefulSetTick>, n: nat): Cache
    requires n <= |ticks|
  {
    if n == 0 then NO_CACHE else StsCacheAfter(target, StsCacheBefore(target, ticks, n - 1), ticks[n - 1])
  }

  function StsVerdictAt(target: int, ticks: seq<StatefulSetTick>, n: nat): Verdict
    requires n < |ticks|
  {
    StsJudge(target, StsCacheBefore(target, ticks, n), ticks[n])
  }

  method WaitForStatefulSetRollout(target: int, ticks: seq<StatefulSetTick>) returns (v: Verdict, polls: nat)
    ensures polls <= |ticks| && v != Continue
    ensures forall k :: 0 <= k < polls - 1 ==> StsVerdictAt(target, ticks, k) == Continue
    ensures if v == Fail(DeadlineReached) then
              polls == |ticks| && forall k :: 0 <= k < polls ==> StsVerdictAt(target, ticks, k) == Continue
            else polls > 0 && v == StsVerdictAt(target, ticks, polls - 1)
    ensures v == Complete ==>
      polls > 0 && ticks[polls - 1].statefulSet.Ok? &&
      var sts := ticks[polls - 1].statefulSet.value;
      var desired := if sts.replicas.Some? then sts.replicas.value else 1;
      sts.updateRevision != "" && sts.updateRevision == sts.currentRevision &&
      sts.updated == desired && sts.current == desired && sts.ready == desired && sts.observedGeneration >= target
  {
    var cachedRevision := "";
    var cachedSelector: Option<LabelSelector> := None;
    polls := 0;
    while polls < |ticks|
      invariant 0 <= polls <= |ticks|
      invariant Cache(cachedRevision, cachedSelector) == StsCacheBefore(target, ticks, polls)
      invariant forall k :: 0 <= k < polls ==> StsVerdictAt(target, ticks, k) == Continue
    {
      var t := ticks[polls];
      ghost var before := Cache(cachedRevision, cachedSelector);
      polls := polls + 1;
      assert StsJudge(target, before, t) == StsVerdictAt(target, ticks, polls - 1);
      if t.statefulSet.Err? {
        if t.statefulSet.error.IsTransient() {
          continue;
        }
        return Fail(ApiFailed(t.statefulSet.error)), polls;
      }
      var sts := t.statefulSet.value;
      if sts.observedGeneration < target {
        continue;
      }
      if sts.updateRevision != cachedRevision {
        cachedSelector := NewRevisionSelector(sts.selector, sts.updateRevision);
        cachedRevision := sts.updateRevision;
      }
      match FindBadPodState(cachedSelector, t.pods) {
        case CheckFailed(transient) =>
          if transient {
            continue;
          }
          return Fail(PodCheckFailed), polls;
        case Bad(cause) =>
          return Fail(cause), polls;
        case Clean =>
          if StsRolledOut(sts) {
            return Complete, polls;
          }
      }
    }
    v := Fail(DeadlineReached);
  }

  /** A nil return means every count and both revisions agree on a status at or past the target, with
      no stuck pod under the selector in use; and every observation like that completes the wait. */
  lemma {:induction false} StsCompleteExactly(target: int, cache: Cache, t: StatefulSetTick)
    ensures StsJudge(target, cache, t) == Complete <==>
      t.statefulSet.Ok? &&
      var sts := t.statefulSet.value;
      var desired := if sts.replicas.Some? then sts.replicas.value else 1;
      sts.updateRevision != "" && sts.updateRevision == sts.currentRevision &&
      sts.updated == desired && sts.current == desired && sts.ready == desired && sts.observedGeneration >= target &&
      FindBadPodState(StsCacheAfter(target, cache, t).selector, t.pods) == Clean
    ensures forall e :: StsJudge(target, cache, t) == Fail(ApiFailed(e)) <==>
      t.statefulSet == Err(e) && !(e.InternalError? || e.ServerTimeout? || e.Timeout? || e.TooManyRequests?)
  {}

  lemma StsStaleStatusDecidesNothing(target: int, cache: Cache, t: StatefulSetTick)
    requires match t.statefulSet
      case Ok(sts) => sts.observedGeneration < target
      case Err(e) => e.InternalError? || e.ServerTimeout? || e.Timeout? || e.TooManyRequests?
    ensures StsJudge(target, cache, t) == Continue && StsCacheAfter(target, cache, t) == cache
  {}

  /** The base selector is the same in every observation that passes the gate. */
  predicate FixedBase(target: int, ticks: seq<StatefulSetTick>, n: nat, base: Option<LabelSelector>)
    requires n <= |ticks|
  {
    forall i :: 0 <= i < n && StsGate(target, ticks[i]) ==> ticks[i].statefulSet.value.selector == base
  }

  predicate RevisionSeen(target: int, ticks: seq<StatefulSetTick>, n: nat)
    requires n <= |ticks|
  {
    exists i :: 0 <= i < n && StsGate(target, ticks[i]) && ticks[i].statefulSet.value.updateRevision != ""
  }

  /** Before the first non-empty revision there is no selector and no check; from it on, the selector
      in use is a fresh revision selector for the latest revision, whatever happened in between. */
  lemma {:induction false} StsSelectorIsFresh(
      target: int, ticks: seq<StatefulSetTick>, n: nat, base: Option<LabelSelector>)
    requires n <= |ticks| && FixedBase(target, ticks, n, base)
    ensures var cache := StsCacheBefore(target, ticks, n);
      cache ==
        if RevisionSeen(target, ticks, n) then Cache(cache.revision, NewRevisionSelector(base, cache.revision))
        else NO_CACHE
    ensures n > 0 && StsGate(target, ticks[n - 1]) ==>
      StsCacheBefore(target, ticks, n).revision == ticks[n - 1].statefulSet.value.updateRevision
  {
    if n > 0 {
      StsSelectorIsFresh(target, ticks, n - 1, base);
      assert RevisionSeen(target, ticks, n) <==>
        RevisionSeen(target, ticks, n - 1) ||
        (StsGate(target, ticks[n - 1]) && ticks[n - 1].statefulSet.value.updateRevision != "");
    }
  }

  /** The StatefulSet check looks at exactly the base's pods of the revision being rolled out. */
  lemma StsCheckSelectsRevision(target: int, ticks: seq<StatefulSetTick>, n: nat, base: LabelSelector, labels: LabelSet)
    requires n < |ticks| && FixedBase(target, ticks, n + 1, Some(base)) && StsGate(target, ticks[n])
    requires ticks[n].statefulSet.value.updateRevision != ""
    requires REVISION_HASH_LABEL !in base.matchLabels
    ensures var sel := StsCacheBefore(target, ticks, n + 1).selector;
      sel.Some? &&
      (Selects(sel.value, labels) <==>
        Selects(base, labels) && REVISION_HASH_LABEL in labels &&
        labels[REVISION_HASH_LABEL] == ticks[n].statefulSet.value.updateRevision)
  {
    StsSelectorIsFresh(target, ticks, n + 1, Some(base));
    NewRevisionSelectorSelects(base, ticks[n].statefulSet.value.updateRevision, labels);
  }

  /** A fail-fast on pod state blames a stuck pod of the listing, on a status that is not stale. */
  lemma StsBadPodMeansStuckPod(target: int, cache: Cache, t: StatefulSetTick, cause: Cause)
    requires StsJudge(target, cache, t) == Fail(cause) && cause.BadPod?
    ensures StsGate(target, t) && StsCacheAfter(target, cache, t).selector.Some?
    ensures var sel := StsCacheAfter(target, cache, t).selector.value;
      t.pods(sel).Ok? && Names(cause, t.pods(sel).value)
  {}

  /** What a nil return is worth: the StatefulSet is rolled out at or past the target, and no pod of the
      base that carries the revision's hash is stuck. A completing poll is never unchecked, because an
      empty revision does not complete. */
  lemma {:induction false} StsCompletionChecksRevision(
      target: int, ticks: seq<StatefulSetTick>, n: nat, base: Option<LabelSelector>)
    requires n < |ticks| && FixedBase(target, ticks, n + 1, base) && StsVerdictAt(target, ticks, n) == Complete
    ensures StsGate(target, ticks[n]) && StsRolledOut(ticks[n].statefulSet.value)
    ensures var revision := ticks[n].statefulSet.value.updateRevision;
      revision != "" && FindBadPodState(NewRevisionSelector(base, revision), ticks[n].pods) == Clean
  {
    StsCompleteExactly(target, StsCacheBefore(target, ticks, n), ticks[n]);
    StsSelectorIsFresh(target, ticks, n + 1, base);
  }

  /** The observations whose status is recent enough. */
  function StsRecent(target: int, ticks: seq<StatefulSetTick>): seq<StatefulSetTick> {
    if ticks == [] then []
    else
      var n := |ticks| - 1;
      StsRecent(target, ticks[..n]) + if StsGate(target, ticks[n]) then [ticks[n]] else []
  }

  lemma {:induction false} StsCacheOfPrefix(
      target: int, ticks: seq<StatefulSetTick>, more: seq<StatefulSetTick>, n: nat)
    requires n <= |ticks|
    ensures StsCacheBefore(target, ticks + more, n) == StsCacheBefore(target, ticks, n)
  {
    if n > 0 {
      StsCacheOfPrefix(target, ticks, more, n - 1);
    }
  }

  lemma {:induction false} StsRecentCache(target: int, ticks: seq<StatefulSetTick>)
    ensures StsCacheBefore(target, ticks, |ticks|) ==
      StsCacheBefore(target, StsRecent(target, ticks), |StsRecent(target, ticks)|)
  {
    if ticks != [] {
      var n := |ticks| - 1;
      var front, last := ticks[..n], ticks[n];
      StsRecentCache(target, front);
      assert ticks == front + [last];
      StsCacheOfPrefix(target, front, [last], n);
      if StsGate(target, last) {
        var recent := StsRecent(target, front);
        StsCacheOfPrefix(target, recent, [last], |recent|);
        assert StsRecent(target, ticks) == recent + [last];
        assert (recent + [last])[|recent|] == last;
      } else {
        assert StsRecent(target, ticks) == StsRecent(target, front);
      }
    }
  }

  /** Stale statuses and failed GETs leave no trace here either. */
  lemma {:induction false} StsStaleStatusLeavesNoTrace(target: int, ticks: seq<StatefulSetTick>, n: nat)
    requires n < |ticks|
    ensures var recent := StsRecent(target, ticks[..n]);
      StsVerdictAt(target, ticks, n) == StsVerdictAt(target, recent + [ticks[n]], |recent|)
  {
    var recent := StsRecent(target, ticks[..n]);
    StsRecentCache(target, ticks[..n]);
    assert ticks == ticks[..n] + ticks[n..];
    StsCacheOfPrefix(target, ticks[..n], ticks[n..], n);
    StsCacheOfPrefix(target, recent, [ticks[n]], |recent|);
  }

  // ----- pods leaving the node -----

  /** Counts the listed pods that have not finished; terminating pods still count. */
  method CountLive(pods: seq<Pod>) returns (count: nat)
    ensures count == |Live(pods)|
  {
    count := 0;
    for i := 0 to |pods|
      invariant count == |Live(pods[..i])|
    {
      assert pods[..i + 1][..i] == pods[..i];
      if !pods[i].IsTerminal() {
        count := count + 1;
      }
    }
    assert pods[..|pods|] == pods;
  }

  function Live(pods: seq<Pod>): seq<Pod> {
    if pods == [] then []
    else Live(pods[..|pods| - 1]) + if pods[|pods| - 1].IsTerminal() then [] else [pods[|pods| - 1]]
  }

  lemma {:induction false} NoneLive(pods: seq<Pod>)
    ensures |Live(pods)| == 0 <==> forall p :: p in pods ==> p.IsTerminal()
  {
    if pods != [] {
      NoneLive(pods[..|pods| - 1]);
      assert pods == pods[..|pods| - 1] + [pods[|pods| - 1]];
    }
  }

  /** The answers to listing the workload's pods on the node, one per poll. */
  type Listings = seq<Result<seq<Pod>, ApiError>>

  predicate Vacated(answer: Result<seq<Pod>, ApiError>) {
    answer.Ok? && forall p :: p in answer.value ==> p.IsTerminal()
  }

  predicate Undecided(answer: Result<seq<Pod>, ApiError>) {
    if answer.Ok? then !Vacated(answer) else answer.error.IsTransient()
  }

  /** The node is seen free of live pods before anything else decides the wait. */
  predicate Vacates(selector: Option<LabelSelector>, listings: Listings) {
    selector.Some? && ValidSelector(selector.value) &&
    exists n :: 0 <= n < |listings| && Vacated(listings[n]) && forall k :: 0 <= k < n ==> Undecided(listings[k])
  }

  /** The same on the listed pods: all have succeeded or failed, or there are none, and every answer before
      shows a pod that has not, or is one of the four errors that may pass. */
  lemma {:induction false} VacatesExactly(selector: Option<LabelSelector>, listings: Listings)
    ensures Vacates(selector, listings) <==>
      selector.Some? && AsSelector(selector.value).Ok? &&
      exists n :: 0 <= n < |listings| && listings[n].Ok? &&
        (forall p :: p in listings[n].value ==> p.phase.Succeeded? || p.phase.Failed?) &&
        forall k :: 0 <= k < n ==>
          match listings[k]
          case Ok(pods) => exists p :: p in pods && !p.phase.Succeeded? && !p.phase.Failed?
          case Err(e) => e.InternalError? || e.ServerTimeout? || e.Timeout? || e.TooManyRequests?
  {
    assert forall p: Pod :: p.IsTerminal() <==> p.phase.Succeeded? || p.phase.Failed?;
  }

  /** Nil exactly at the first listing without a live pod; an error at the first fatal answer, when the
      selector is unusable, or when the deadline comes first. */
  method WaitForPodsOffNode(selector: Option<LabelSelector>, listings: Listings) returns (ok: bool, polls: nat)
    ensures polls <= |listings| && forall k :: 0 <= k < polls - 1 ==> Undecided(listings[k])
    ensures ok <==> Vacates(selector, listings)
    ensures ok ==>
      polls > 0 && listings[polls - 1].Ok? &&
      forall p :: p in listings[polls - 1].value ==> p.phase.Succeeded? || p.phase.Failed?
    ensures !ok && selector.Some? && ValidSelector(selector.value) ==>
      (polls == |listings| && forall k :: 0 <= k < polls ==> Undecided(listings[k])) ||
      (polls > 0 && listings[polls - 1].Err? && !listings[polls - 1].error.IsTransient())
  {
    polls := 0;
    if selector.None? || !ValidSelector(selector.value) {
      return false, 0;
    }
    while polls < |listings|
      invariant 0 <= polls <= |listings|
      invariant forall k :: 0 <= k < polls ==> Undecided(listings[k])
    {
      polls := polls + 1;
      match listings[polls - 1] {
        case Err(e) =>
          if !e.IsTransient() {
            return false, polls;
          }
        case Ok(pods) =>
          var count := CountLive(pods);
          NoneLive(pods);
          if count == 0 {
            return true, polls;
          }
      }
    }
    ok := false;
  }

  /** An error that may pass. */
  predicate Passing<T>(answer: Result<T, ApiError>) {
    answer.Err? &&
    var e := answer.error;
    e.InternalError? || e.ServerTimeout? || e.Timeout? || e.TooManyRequests?
  }

  /** Retries a call while its error is transient and the context is live, three attempts at most. */
  method RetryTransient<T>(answers: seq<Result<T, ApiError>>, cancelled: seq<bool>)
    returns (r: Result<T, ApiError>, attempts: nat)
    requires |answers| == |cancelled| == 3
    ensures 1 <= attempts <= 3 && r == answers[attempts - 1]
    ensures forall k :: 0 <= k < attempts - 1 ==> Passing(answers[k]) && !cancelled[k]
    ensures Passing(r) ==> attempts == 3 || cancelled[attempts - 1]
  {
    attempts := 0;
    r := answers[0];
    while attempts < 3
      invariant 0 <= attempts <= 3
      invariant attempts > 0 ==> r == answers[attempts - 1]
      invariant forall k :: 0 <= k < attempts ==> answers[k].Err? && answers[k].error.IsTransient() && !cancelled[k]
    {
      r := answers[attempts];
      attempts := attempts + 1;
      if r.Ok? || !r.error.IsTransient() || cancelled[attempts - 1] {
        return;
      }
    }
  }
}
