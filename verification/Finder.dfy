/** Discovery of the workloads that own pods on a node, with its request-scoped caches. */
module Finder {
  import opened Kube
  import opened Labels
  import opened Workloads

  /** The answer to one GET. */
  datatype Get<+T> = Found(value: T) | Missing | Failed(error: string)

  datatype ReplicaSet = ReplicaSet(uid: string, owners: seq<OwnerRef>)

  /** A Deployment or StatefulSet, with its drain priority already parsed. */
  datatype Controller = Controller(uid: string, generation: int, selector: Option<LabelSelector>, priority: int)

  /** One state of the API server: every GET during a discovery pass is answered from it. */
  datatype Cluster = Cluster(
    replicaSets: (string, string) -> Get<ReplicaSet>,
    deployments: (string, string) -> Get<Controller>,
    statefulSets: (string, string) -> Get<Controller>)

  datatype Resolution = Resolved(workload: Workload) | Unmanaged | Failure(error: string)

  /** The outcome of a discovery pass; an error names the pod whose owner could not be resolved. */
  datatype Discovery =
    | Discovered(workloads: seq<Workload>)
    | DiscoveryFailed(namespace: string, pod: string, error: string)

  function ControllerKinds(): set<string> {
    {"ReplicaSet", "Deployment", "StatefulSet", "DaemonSet", "Job", "CronJob"}
  }

  /** The first owner reference flagged as controller whose kind is known. */
  function ControllerOwnerRef(refs: seq<OwnerRef>): (r: Option<OwnerRef>)
    ensures r.Some? ==> exists i ::
      0 <= i < |refs| && refs[i] == r.value && IsController(refs[i]) &&
      forall j :: 0 <= j < i ==> !IsController(refs[j])
    ensures r.None? ==> forall i :: 0 <= i < |refs| ==> !IsController(refs[i])
  {
    if refs == [] then None
    else if IsController(refs[0]) then Some(refs[0])
    else ControllerOwnerRef(refs[1..])
  }

  predicate IsController(ref: OwnerRef) {
    ref.controller == Some(true) && ref.kind in ControllerKinds()
  }

  function AsWorkload(kind: string, namespace: string, name: string, c: Controller): Workload {
    Workload(kind, namespace, name, c.uid, c.generation, c.selector, c.priority)
  }

  // ----- resolution without caches: every reference is checked against the object it names -----

  predicate UidMatches(ref: OwnerRef, uid: string) {
    ref.uid == "" || ref.uid == uid
  }

  function FreshController(kind: string, answer: Get<Controller>, namespace: string, ref: OwnerRef): Resolution {
    match answer
    case Missing => Unmanaged
    case Failed(e) => Failure(e)
    case Found(c) => if UidMatches(ref, c.uid) then Resolved(AsWorkload(kind, namespace, ref.name, c)) else Unmanaged
  }

  function FreshDeployment(c: Cluster, namespace: string, ref: OwnerRef): Resolution {
    FreshController(DEPLOYMENT, c.deployments(namespace, ref.name), namespace, ref)
  }

  function FreshStatefulSet(c: Cluster, namespace: string, ref: OwnerRef): Resolution {
    FreshController(STATEFUL_SET, c.statefulSets(namespace, ref.name), namespace, ref)
  }

  function FreshReplicaSet(c: Cluster, namespace: string, ref: OwnerRef): Resolution {
    match c.replicaSets(namespace, ref.name)
    case Missing => Unmanaged
    case Failed(e) => Failure(e)
    case Found(rs) =>
      var owner := ControllerOwnerRef(rs.owners);
      if !UidMatches(ref, rs.uid) || owner.None? || owner.value.kind != "Deployment" then Unmanaged
      else FreshDeployment(c, namespace, owner.value)
  }

  function FreshOwner(c: Cluster, pod: Pod): Resolution {
    var ref := ControllerOwnerRef(pod.owners);
    if ref.None? then Unmanaged
    else if ref.value.kind == "ReplicaSet" then FreshReplicaSet(c, pod.namespace, ref.value)
    else if ref.value.kind == "StatefulSet" then FreshStatefulSet(c, pod.namespace, ref.value)
    else Unmanaged
  }

  /** Adds the workload of one more pod unless its key is already present. */
  function AddFresh(c: Cluster, ws: seq<Workload>, pod: Pod): Discovery {
    if pod.IsTerminal() then Discovered(ws)
    else match FreshOwner(c, pod)
      case Failure(e) => DiscoveryFailed(pod.namespace, pod.name, e)
      case Unmanaged => Discovered(ws)
      case Resolved(w) => Discovered(if KeyOf(w) in Keys(ws) then ws else ws + [w])
  }

  /** The reference: resolve every pod afresh, in list order, and keep first occurrences. */
  function FindFresh(c: Cluster, pods: seq<Pod>): Discovery {
    if pods == [] then Discovered([])
    else
      var before := FindFresh(c, pods[..|pods| - 1]);
      if before.DiscoveryFailed? then before
      else AddFresh(c, before.workloads, pods[|pods| - 1])
  }

  /** The pods a discovery pass must account for. */
  predicate Owns(c: Cluster, pods: seq<Pod>, w: Workload) {
    exists i :: 0 <= i < |pods| && !pods[i].IsTerminal() && FreshOwner(c, pods[i]) == Resolved(w)
  }

  // ----- ownership, read off the pods and the API's answers -----

  /** The first reference flagged as controller whose kind is known. */
  predicate Controls(refs: seq<OwnerRef>, n: int) {
    0 <= n < |refs| && Qualifies(refs[n]) && forall j :: 0 <= j < n ==> !Qualifies(refs[j])
  }

  predicate Qualifies(ref: OwnerRef) {
    ref.controller == Some(true) &&
    (ref.kind == "ReplicaSet" || ref.kind == "Deployment" || ref.kind == "StatefulSet" ||
     ref.kind == "DaemonSet" || ref.kind == "Job" || ref.kind == "CronJob")
  }

  /** The reference names a StatefulSet that the API holds, under the UID it gives if it gives one. */
  predicate NamesStatefulSet(c: Cluster, namespace: string, ref: OwnerRef, w: Workload) {
    ref.kind == "StatefulSet" &&
    match c.statefulSets(namespace, ref.name)
    case Found(sts) =>
      (ref.uid == "" || ref.uid == sts.uid) &&
      w == Workload("StatefulSet", namespace, ref.name, sts.uid, sts.generation, sts.selector, sts.priority)
    case _ => false
  }

  predicate NamesDeployment(c: Cluster, namespace: string, ref: OwnerRef, w: Workload) {
    ref.kind == "Deployment" &&
    match c.deployments(namespace, ref.name)
    case Found(dep) =>
      (ref.uid == "" || ref.uid == dep.uid) &&
      w == Workload("Deployment", namespace, ref.name, dep.uid, dep.generation, dep.selector, dep.priority)
    case _ => false
  }

  /** The reference names a ReplicaSet that the API holds, under that UID, and whose own controller is the
      Deployment. */
  ghost predicate NamesReplicaSetOf(c: Cluster, namespace: string, ref: OwnerRef, w: Workload) {
    ref.kind == "ReplicaSet" &&
    match c.replicaSets(namespace, ref.name)
    case Found(rs) =>
      (ref.uid == "" || ref.uid == rs.uid) &&
      exists m :: Controls(rs.owners, m) && NamesDeployment(c, namespace, rs.owners[m], w)
    case _ => false
  }

  /** The workload owns the pod, which has neither succeeded nor failed. */
  ghost predicate OwnsLivePod(c: Cluster, pod: Pod, w: Workload) {
    !pod.phase.Succeeded? && !pod.phase.Failed? &&
    exists n :: Controls(pod.owners, n) &&
      (NamesStatefulSet(c, pod.namespace, pod.owners[n], w) || NamesReplicaSetOf(c, pod.namespace, pod.owners[n], w))
  }

  lemma FirstControls(refs: seq<OwnerRef>)
    ensures forall n :: Controls(refs, n) ==> ControllerOwnerRef(refs) == Some(refs[n])
    ensures ControllerOwnerRef(refs).Some? ==>
      exists n :: Controls(refs, n) && refs[n] == ControllerOwnerRef(refs).value
  {
    assert forall ref :: Qualifies(ref) <==> IsController(ref);
    forall n | Controls(refs, n) ensures ControllerOwnerRef(refs) == Some(refs[n]) {
      if ControllerOwnerRef(refs).Some? {
        var i :| 0 <= i < |refs| && refs[i] == ControllerOwnerRef(refs).value && IsController(refs[i]) &&
          forall j :: 0 <= j < i ==> !IsController(refs[j]);
        assert i == n;
      }
    }
  }

  lemma ReplicaSetResolves(c: Cluster, namespace: string, ref: OwnerRef, w: Workload)
    requires ref.kind == "ReplicaSet"
    ensures FreshReplicaSet(c, namespace, ref) == Resolved(w) <==> NamesReplicaSetOf(c, namespace, ref, w)
  {
    if c.replicaSets(namespace, ref.name).Found? {
      FirstControls(c.replicaSets(namespace, ref.name).value.owners);
    }
  }

  lemma {:induction false} OwnerResolves(c: Cluster, pod: Pod, w: Workload)
    ensures !pod.IsTerminal() && FreshOwner(c, pod) == Resolved(w) <==> OwnsLivePod(c, pod, w)
  {
    FirstControls(pod.owners);
    forall n | Controls(pod.owners, n) && pod.owners[n].kind == "ReplicaSet"
      ensures FreshReplicaSet(c, pod.namespace, pod.owners[n]) == Resolved(w) <==>
        NamesReplicaSetOf(c, pod.namespace, pod.owners[n], w)
    {
      ReplicaSetResolves(c, pod.namespace, pod.owners[n], w);
    }
  }

  /** Reading the owner of the pod runs into an API failure. */
  ghost predicate OwnerUnreadable(c: Cluster, pod: Pod) {
    !pod.phase.Succeeded? && !pod.phase.Failed? &&
    exists n :: Controls(pod.owners, n) &&
      var ref := pod.owners[n];
      (ref.kind == "StatefulSet" && c.statefulSets(pod.namespace, ref.name).Failed?) ||
      (ref.kind == "ReplicaSet" && ReplicaSetUnreadable(c, pod.namespace, ref))
  }

  ghost predicate ReplicaSetUnreadable(c: Cluster, namespace: string, ref: OwnerRef) {
    match c.replicaSets(namespace, ref.name)
    case Missing => false
    case Failed(_) => true
    case Found(rs) =>
      (ref.uid == "" || ref.uid == rs.uid) &&
      exists m :: Controls(rs.owners, m) && rs.owners[m].kind == "Deployment" &&
        c.deployments(namespace, rs.owners[m].name).Failed?
  }

  lemma ReplicaSetFails(c: Cluster, namespace: string, ref: OwnerRef)
    ensures FreshReplicaSet(c, namespace, ref).Failure? <==> ReplicaSetUnreadable(c, namespace, ref)
  {
    if c.replicaSets(namespace, ref.name).Found? {
      FirstControls(c.replicaSets(namespace, ref.name).value.owners);
    }
  }

  lemma OwnerFails(c: Cluster, pod: Pod)
    ensures !pod.IsTerminal() && FreshOwner(c, pod).Failure? <==> OwnerUnreadable(c, pod)
  {
    FirstControls(pod.owners);
    forall ref
      ensures FreshReplicaSet(c, pod.namespace, ref).Failure? <==> ReplicaSetUnreadable(c, pod.namespace, ref)
    {
      ReplicaSetFails(c, pod.namespace, ref);
    }
  }

  /** Discovery fails exactly when some live pod's owner cannot be read. */
  lemma {:induction false} FailsExactly(c: Cluster, pods: seq<Pod>)
    ensures FindFresh(c, pods).DiscoveryFailed? <==> exists pod :: pod in pods && OwnerUnreadable(c, pod)
  {
    if pods != [] {
      var front, last := pods[..|pods| - 1], pods[|pods| - 1];
      FailsExactly(c, front);
      OwnerFails(c, last);
      assert pods == front + [last];
      assert last in pods && forall pod :: pod in pods <==> pod in front || pod == last;
    }
  }

  // ----- the reference resolver, pod by pod -----

  /** One more pod adds at most its owner: the listed keys stay distinct and cover that owner. */
  lemma AddFreshStep(c: Cluster, ws: seq<Workload>, pod: Pod)
    requires DistinctKeys(ws) && AddFresh(c, ws, pod).Discovered?
    ensures var after := AddFresh(c, ws, pod).workloads;
      DistinctKeys(after) && ws <= after && Keys(ws) <= Keys(after) &&
      (forall w :: w in after && w !in ws ==> !pod.IsTerminal() && FreshOwner(c, pod) == Resolved(w)) &&
      (forall w :: !pod.IsTerminal() && FreshOwner(c, pod) == Resolved(w) ==> KeyOf(w) in Keys(after))
  {
    var after := AddFresh(c, ws, pod).workloads;
    if after != ws {
      assert forall i :: 0 <= i < |ws| ==> ws[i] in ws;
    }
  }

  lemma {:induction false} FindFreshUnique(c: Cluster, pods: seq<Pod>)
    requires FindFresh(c, pods).Discovered?
    ensures DistinctKeys(FindFresh(c, pods).workloads)
  {
    if pods != [] {
      var n := |pods| - 1;
      FindFreshUnique(c, pods[..n]);
      AddFreshStep(c, FindFresh(c, pods[..n]).workloads, pods[n]);
    }
  }

  /** Every pod of the list is accounted for, and its owner's key is listed. */
  lemma {:induction false} FindFreshComplete(c: Cluster, pods: seq<Pod>, i: int)
    requires FindFresh(c, pods).Discovered? && 0 <= i < |pods| && !pods[i].IsTerminal()
    ensures !FreshOwner(c, pods[i]).Failure?
    ensures FreshOwner(c, pods[i]).Resolved? ==>
      KeyOf(FreshOwner(c, pods[i]).workload) in Keys(FindFresh(c, pods).workloads)
  {
    var n := |pods| - 1;
    FindFreshUnique(c, pods[..n]);
    AddFreshStep(c, FindFresh(c, pods[..n]).workloads, pods[n]);
    if i < n {
      assert pods[..n][i] == pods[i];
      FindFreshComplete(c, pods[..n], i);
    }
  }

  /** Every listed workload is the checked owner of some pod of the list. */
  lemma {:induction false} FindFreshSound(c: Cluster, pods: seq<Pod>, w: Workload)
    requires FindFresh(c, pods).Discovered? && w in FindFresh(c, pods).workloads
    ensures Owns(c, pods, w)
  {
    var n := |pods| - 1;
    FindFreshUnique(c, pods[..n]);
    AddFreshStep(c, FindFresh(c, pods[..n]).workloads, pods[n]);
    if w in FindFresh(c, pods[..n]).workloads {
      FindFreshSound(c, pods[..n], w);
      var i :| 0 <= i < n && !pods[..n][i].IsTerminal() && FreshOwner(c, pods[..n][i]) == Resolved(w);
      assert pods[i] == pods[..n][i];
    }
  }

  /** A resolved owner is the object the API server holds under its kind, namespace and name. */
  predicate Live(c: Cluster, w: Workload) {
    || (w.kind == DEPLOYMENT && c.deployments(w.namespace, w.name).Found? &&
        w == AsWorkload(DEPLOYMENT, w.namespace, w.name, c.deployments(w.namespace, w.name).value))
    || (w.kind == STATEFUL_SET && c.statefulSets(w.namespace, w.name).Found? &&
        w == AsWorkload(STATEFUL_SET, w.namespace, w.name, c.statefulSets(w.namespace, w.name).value))
  }

  lemma OwnersAreLive(c: Cluster, pods: seq<Pod>, w: Workload)
    requires Owns(c, pods, w)
    ensures Live(c, w) && exists pod :: pod in pods && w.namespace == pod.namespace
  {
    var i :| 0 <= i < |pods| && !pods[i].IsTerminal() && FreshOwner(c, pods[i]) == Resolved(w);
    assert pods[i] in pods;
  }

  lemma OneOwnerPerKey(c: Cluster, pods: seq<Pod>, w: Workload, w': Workload)
    requires forall pod :: pod in pods ==> NoSlash(pod.namespace)
    requires Owns(c, pods, w) && Owns(c, pods, w') && KeyOf(w) == KeyOf(w')
    ensures w == w'
  {
    OwnersAreLive(c, pods, w);
    OwnersAreLive(c, pods, w');
    SameKeySameObject(c, w, w');
  }

  lemma SameKeySameObject(c: Cluster, w: Workload, w': Workload)
    requires Live(c, w) && Live(c, w') && NoSlash(w.namespace) && NoSlash(w'.namespace) && KeyOf(w) == KeyOf(w')
    ensures w == w'
  {
    KeyInjective(w.kind, w.namespace, w.name, w'.kind, w'.namespace, w'.name);
  }

  /** What discovery reports, read off the pods and the API's answers alone: exactly the workloads that
      own a live pod of the node, each once. */
  lemma {:induction false} DiscoveryReportsOwners(c: Cluster, pods: seq<Pod>)
    requires FindFresh(c, pods).Discovered?
    requires forall pod :: pod in pods ==> NoSlash(pod.namespace)
    ensures DistinctKeys(FindFresh(c, pods).workloads)
    ensures forall w :: w in FindFresh(c, pods).workloads <==> exists pod :: pod in pods && OwnsLivePod(c, pod, w)
  {
    ReportsOwners(c, pods);
    forall w ensures Owns(c, pods, w) <==> exists pod :: pod in pods && OwnsLivePod(c, pod, w) {
      forall pod: Pod ensures !pod.IsTerminal() && FreshOwner(c, pod) == Resolved(w) <==> OwnsLivePod(c, pod, w) {
        OwnerResolves(c, pod, w);
      }
      assert forall i :: 0 <= i < |pods| ==> pods[i] in pods;
    }
  }

  lemma {:induction false} ReportsOwners(c: Cluster, pods: seq<Pod>)
    requires FindFresh(c, pods).Discovered?
    requires forall pod :: pod in pods ==> NoSlash(pod.namespace)
    ensures DistinctKeys(FindFresh(c, pods).workloads)
    ensures forall w :: w in FindFresh(c, pods).workloads <==> Owns(c, pods, w)
  {
    var ws := FindFresh(c, pods).workloads;
    FindFreshUnique(c, pods);
    forall w | w in ws ensures Owns(c, pods, w) {
      FindFreshSound(c, pods, w);
    }
    forall w | Owns(c, pods, w) ensures w in ws {
      var i :| 0 <= i < |pods| && !pods[i].IsTerminal() && FreshOwner(c, pods[i]) == Resolved(w);
      FindFreshComplete(c, pods, i);
      var listed :| listed in ws && KeyOf(listed) == KeyOf(w);
      OneOwnerPerKey(c, pods, w, listed);
    }
  }

  /** A failed GET anywhere in a prefix fails the whole pass. */
  lemma {:induction false} FailureIsFinal(c: Cluster, pods: seq<Pod>, n: nat)
    requires n <= |pods| && FindFresh(c, pods[..n]).DiscoveryFailed?
    ensures FindFresh(c, pods) == FindFresh(c, pods[..n])
    decreases |pods| - n
  {
    if n < |pods| {
      assert pods[..n + 1][..n] == pods[..n];
      FailureIsFinal(c, pods, n + 1);
    } else {
      assert pods[..n] == pods;
    }
  }

  // ----- resolution with caches -----

  function ReplicaSetKey(namespace: string, name: string): string {
    namespace + "/" + name
  }

  class Finder {
    const cluster: Cluster
    var rsCache: map<string, ReplicaSet>
    var wlCache: map<string, Workload>

    constructor (cluster: Cluster)
      ensures this.cluster == cluster && Coherent() && rsCache == map[] && wlCache == map[]
    {
      this.cluster := cluster;
      rsCache, wlCache := map[], map[];
    }

    /** Every cached entry is what the API server would answer now. */
    ghost predicate Coherent()
      reads this
    {
      (forall ns, name :: NoSlash(ns) && ReplicaSetKey(ns, name) in rsCache ==>
        cluster.replicaSets(ns, name) == Found(rsCache[ReplicaSetKey(ns, name)])) &&
      (forall ns, name :: NoSlash(ns) && Key(DEPLOYMENT, ns, name) in wlCache ==>
        CachedFrom(DEPLOYMENT, cluster.deployments(ns, name), ns, name)) &&
      (forall ns, name :: NoSlash(ns) && Key(STATEFUL_SET, ns, name) in wlCache ==>
        CachedFrom(STATEFUL_SET, cluster.statefulSets(ns, name), ns, name))
    }

    ghost predicate CachedFrom(kind: string, answer: Get<Controller>, ns: string, name: string)
      requires Key(kind, ns, name) in wlCache
      reads this
    {
      answer.Found? && wlCache[Key(kind, ns, name)] == AsWorkload(kind, ns, name, answer.value)
    }

    /** What a lookup through the caches may return: the fresh resolution, whose workload it then
        caches; or, without the UID check of the fresh one, a workload cached earlier. */
    static ghost predicate AnsweredAs(exact: Resolution, r: Resolution,
                                      before: map<string, Workload>, after: map<string, Workload>) {
      if r.Resolved? && KeyOf(r.workload) in before then
        after == before && before[KeyOf(r.workload)] == r.workload &&
        !exact.Failure? && (exact.Resolved? ==> exact == r)
      else
        r == exact && after == if r.Resolved? then before[KeyOf(r.workload) := r.workload] else before
    }

    method ResolveDeployment(namespace: string, ref: OwnerRef) returns (r: Resolution)
      requires NoSlash(namespace) && Coherent()
      modifies this`wlCache
      ensures Coherent()
      ensures AnsweredAs(FreshDeployment(cluster, namespace, ref), r, old(wlCache), wlCache)
    {
      r := ResolveController(DEPLOYMENT, cluster.deployments(namespace, ref.name), namespace, ref);
    }

    method ResolveStatefulSet(namespace: string, ref: OwnerRef) returns (r: Resolution)
      requires NoSlash(namespace) && Coherent()
      modifies this`wlCache
      ensures Coherent()
      ensures AnsweredAs(FreshStatefulSet(cluster, namespace, ref), r, old(wlCache), wlCache)
    {
      r := ResolveController(STATEFUL_SET, cluster.statefulSets(namespace, ref.name), namespace, ref);
    }

    /** The body the two kinds share; `answer` is read only when the cache misses. */
    method ResolveController(kind: string, answer: Get<Controller>, namespace: string, ref: OwnerRef)
      returns (r: Resolution)
      requires NoSlash(namespace) && Coherent()
      requires || (kind == DEPLOYMENT && answer == cluster.deployments(namespace, ref.name))
               || (kind == STATEFUL_SET && answer == cluster.statefulSets(namespace, ref.name))
      modifies this`wlCache
      ensures Coherent()
      ensures AnsweredAs(FreshController(kind, answer, namespace, ref), r, old(wlCache), wlCache)
    {
      var key := Key(kind, namespace, ref.name);
      if key in wlCache {
        assert CachedFrom(kind, answer, namespace, ref.name);
        return Resolved(wlCache[key]);
      }
      match answer
      case Missing => return Unmanaged;
      case Failed(e) => return Failure(e);
      case Found(c) =>
        if ref.uid != "" && c.uid != ref.uid {
          return Unmanaged;
        }
        var w := AsWorkload(kind, namespace, ref.name, c);
        wlCache := wlCache[key := w];
        r := Resolved(w);
        forall k, ns, name | k in {DEPLOYMENT, STATEFUL_SET} && NoSlash(ns) && Key(k, ns, name) == key
          ensures k == kind && ns == namespace && name == ref.name
        {
          KeyInjective(k, ns, name, kind, namespace, ref.name);
        }
    }

    method ResolveReplicaSet(namespace: string, ref: OwnerRef) returns (r: Resolution)
      requires NoSlash(namespace) && Coherent()
      modifies this
      ensures Coherent()
      ensures AnsweredAs(FreshReplicaSet(cluster, namespace, ref), r, old(wlCache), wlCache)
    {
      var key := ReplicaSetKey(namespace, ref.name);
      var rs;
      if key in rsCache {
        rs := rsCache[key];
      } else {
        match cluster.replicaSets(namespace, ref.name)
        case Missing => return Unmanaged;
        case Failed(e) => return Failure(e);
        case Found(got) =>
          rs := got;
          rsCache := rsCache[key := rs];
          forall ns, name | NoSlash(ns) && ReplicaSetKey(ns, name) == key
            ensures ns == namespace && name == ref.name
          {
            JoinInjective(ns, name, namespace, ref.name);
          }
      }
      if ref.uid != "" && rs.uid != ref.uid {
        return Unmanaged;
      }
      var owner := ControllerOwnerRef(rs.owners);
      if owner.Some? && owner.value.kind == "Deployment" {
        r := ResolveDeployment(namespace, owner.value);
      } else {
        r := Unmanaged;
      }
    }

    method ResolveOwner(pod: Pod) returns (r: Resolution)
      requires NoSlash(pod.namespace) && Coherent()
      modifies this
      ensures Coherent()
      ensures AnsweredAs(FreshOwner(cluster, pod), r, old(wlCache), wlCache)
    {
      var ref := ControllerOwnerRef(pod.owners);
      if ref.None? {
        return Unmanaged;
      }
      match ref.value.kind
      case "ReplicaSet" => r := ResolveReplicaSet(pod.namespace, ref.value);
      case "StatefulSet" => r := ResolveStatefulSet(pod.namespace, ref.value);
      case _ => r := Unmanaged;
    }

    /** Discovery through the caches returns exactly what the cacheless, UID-checking resolver
        returns, errors included: a hit that skipped the check has a key that is already listed. */
    method FindForNode(pods: seq<Pod>) returns (found: Discovery)
      requires forall pod :: pod in pods ==> NoSlash(pod.namespace)
      modifies this
      ensures found == FindFresh(cluster, pods)
      ensures found.Discovered? <==> !exists pod :: pod in pods && OwnerUnreadable(cluster, pod)
      ensures found.Discovered? ==> DistinctKeys(found.workloads)
      ensures found.Discovered? ==>
        forall w :: w in found.workloads <==> exists pod :: pod in pods && OwnsLivePod(cluster, pod, w)
    {
      FailsExactly(cluster, pods);
      rsCache, wlCache := map[], map[];
      var seen: set<string> := {};
      var workloads: seq<Workload> := [];
      for i := 0 to |pods|
        invariant Coherent()
        invariant wlCache.Keys == seen == Keys(workloads)
        invariant FindFresh(cluster, pods[..i]) == Discovered(workloads)
      {
        var pod := pods[i];
        ghost var listed := workloads;
        assert pods[..i + 1][..i] == pods[..i];
        assert FindFresh(cluster, pods[..i + 1]) == AddFresh(cluster, listed, pod);
        if pod.IsTerminal() {
          continue;
        }
        var r := ResolveOwner(pod);
        match r {
          case Failure(e) =>
            FailureIsFinal(cluster, pods, i + 1);
            return DiscoveryFailed(pod.namespace, pod.name, e);
          case Unmanaged =>
          case Resolved(w) =>
            if KeyOf(w) !in seen {
              seen := seen + {KeyOf(w)};
              workloads := workloads + [w];
            }
        }
      }
      assert pods[..|pods|] == pods;
      found := Discovered(workloads);
      DiscoveryReportsOwners(cluster, pods);
    }
  }
}
