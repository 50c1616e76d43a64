/** The rolling restart of one workload: patch, rollout, and the wait for its pods to leave the node. */
module WorkloadRestart {
  import opened Kube
  import opened Workloads
  import opened Trace
  import opened Rollout

  /** What the coordinator makes of the call: run the body, report it done already, or refuse. */
  datatype Admission = RunBody | AlreadyDone | Refused

  /** Everything a restart learns from its environment. `patched` answers the patch with the generation it
      produced; a deadline or a cancelled context ends a list of answers. */
  datatype Answers = Answers(
    admission: Admission, patched: Result<int, ApiError>,
    deployments: seq<DeploymentTick>, statefulSets: seq<StatefulSetTick>, listings: Listings)

  predicate Supported(w: Workload) {
    w.kind == DEPLOYMENT || w.kind == STATEFUL_SET
  }

  predicate FirstCompletes(target: int, ticks: seq<DeploymentTick>) {
    exists n :: 0 <= n < |ticks| && VerdictAt(target, ticks, n) == Complete &&
      forall k :: 0 <= k < n ==> VerdictAt(target, ticks, k) == Continue
  }

  predicate StsFirstCompletes(target: int, ticks: seq<StatefulSetTick>) {
    exists n :: 0 <= n < |ticks| && StsVerdictAt(target, ticks, n) == Complete &&
      forall k :: 0 <= k < n ==> StsVerdictAt(target, ticks, k) == Continue
  }

  /** The first decisive observation of the rollout of the patch's generation completes it. */
  predicate RollsOut(w: Workload, target: int, a: Answers) {
    if w.kind == DEPLOYMENT then FirstCompletes(target, a.deployments) else StsFirstCompletes(target, a.statefulSets)
  }

  /** What a nil restart takes outside dry run: the coordinator admits it; the body, if it runs, patches
      and rolls out; and the node is seen free of the workload's pods. */
  predicate Works(w: Workload, a: Answers) {
    !a.admission.Refused? && Vacates(w.selector, a.listings) &&
    (a.admission.RunBody? ==> Supported(w) && a.patched.Ok? && RollsOut(w, a.patched.value, a))
  }

  predicate ReturnsNil(w: Workload, dryRun: bool, a: Answers) {
    dryRun || Works(w, a)
  }

  /** An event and one patch when the body runs, and a second event when the restart is complete. */
  function RestartWrites(w: Workload, dryRun: bool, events: bool, a: Answers): seq<Write> {
    if dryRun then []
    else
      WriteIf(events && a.admission.RunBody?, CreateEvent) +
      WriteIf(a.admission.RunBody? && Supported(w), Patch(KeyOf(w))) +
      WriteIf(events && Works(w, a), CreateEvent)
  }

  function Of(w: Workload, dryRun: bool, events: bool, a: Answers): Restart {
    Restart(ReturnsNil(w, dryRun, a), RestartWrites(w, dryRun, events, a))
  }

  /** A restart patches its own workload, once, and exactly if its body runs; else it emits events. */
  lemma OnePatch(w: Workload, dryRun: bool, events: bool, a: Answers)
    ensures var writes := RestartWrites(w, dryRun, events, a);
      |writes| <= 3 &&
      (forall x :: x in writes ==> !dryRun && (x == Patch(KeyOf(w)) || (x == CreateEvent && events))) &&
      (forall m, n :: 0 <= m < n < |writes| && writes[m].Patch? ==> writes[m] != writes[n]) &&
      (Patch(KeyOf(w)) in writes <==>
        !dryRun && a.admission.RunBody? && (w.kind == "Deployment" || w.kind == "StatefulSet"))
    ensures var writes := RestartWrites(w, dryRun, events, a);
      events && !dryRun ==>
        (a.admission.RunBody? ==> writes != [] && writes[0] == CreateEvent) &&
        (ReturnsNil(w, dryRun, a) ==> writes != [] && writes[|writes| - 1] == CreateEvent) &&
        (a.admission.RunBody? && ReturnsNil(w, dryRun, a) ==> writes == [CreateEvent, Patch(KeyOf(w)), CreateEvent])
  {}

  /** And what it takes: the call is not refused; the node is vacated; and, if the body runs, its patch is
      accepted and the first decisive poll of the workload's own kind completes. */
  lemma {:induction false} NilRestartExactly(w: Workload, a: Answers)
    ensures ReturnsNil(w, false, a) <==>
      a.admission != Refused && Vacates(w.selector, a.listings) &&
      (a.admission == RunBody ==>
        a.patched.Ok? &&
        ((w.kind == "Deployment" && FirstCompletes(a.patched.value, a.deployments)) ||
         (w.kind == "StatefulSet" && StsFirstCompletes(a.patched.value, a.statefulSets))))
  {
    assert "Deployment" != "StatefulSet";
  }

  /** What a nil restart was shown, on the observed objects: a listing of the node without a live pod of the
      workload; and, if its body ran, a status that covers the patch and reports every replica updated,
      ready and, for a Deployment, available. */
  lemma {:induction false} NilRestartShows(w: Workload, a: Answers)
    requires ReturnsNil(w, false, a)
    ensures !a.admission.Refused? && w.selector.Some?
    ensures exists k ::
      0 <= k < |a.listings| && a.listings[k].Ok? &&
      forall p :: p in a.listings[k].value ==> p.phase.Succeeded? || p.phase.Failed?
    ensures a.admission.RunBody? ==> a.patched.Ok? && (w.kind == "Deployment" || w.kind == "StatefulSet")
    ensures a.admission.RunBody? && w.kind == "Deployment" ==>
      exists n :: 0 <= n < |a.deployments| && a.deployments[n].deployment.Ok? &&
        var dep := a.deployments[n].deployment.value;
        var desired := if dep.replicas.Some? then dep.replicas.value else 1;
        dep.updated == desired && dep.ready == desired && dep.available == desired && dep.unavailable == 0 &&
        dep.observedGeneration >= a.patched.value && dep.observedGeneration >= dep.generation
    ensures a.admission.RunBody? && w.kind == "StatefulSet" ==>
      exists n :: 0 <= n < |a.statefulSets| && a.statefulSets[n].statefulSet.Ok? &&
        var sts := a.statefulSets[n].statefulSet.value;
        var desired := if sts.replicas.Some? then sts.replicas.value else 1;
        sts.updateRevision != "" && sts.updateRevision == sts.currentRevision &&
        sts.updated == desired && sts.current == desired && sts.ready == desired &&
        sts.observedGeneration >= a.patched.value
  {
    VacatesExactly(w.selector, a.listings);
    if a.admission.RunBody? && w.kind == "Deployment" {
      var n :| 0 <= n < |a.deployments| && VerdictAt(a.patched.value, a.deployments, n) == Complete;
      CompleteExactly(a.patched.value, CacheBefore(a.patched.value, a.deployments, n), a.deployments[n]);
    } else if a.admission.RunBody? {
      var n :| 0 <= n < |a.statefulSets| && StsVerdictAt(a.patched.value, a.statefulSets, n) == Complete;
      StsCompleteExactly(a.patched.value, StsCacheBefore(a.patched.value, a.statefulSets, n), a.statefulSets[n]);
    }
  }

  /** Restarts one workload: patch, wait for the rollout, then wait for its pods to leave the node. */
  method RollingRestart(w: Workload, dryRun: bool, events: bool, a: Answers) returns (ok: bool, writes: seq<Write>)
    ensures ok <==> ReturnsNil(w, dryRun, a)
    ensures writes == RestartWrites(w, dryRun, events, a)
  {
    ok, writes := false, [];
    if dryRun {
      return true, [];
    }
    match a.admission {
      case Refused => return;
      case AlreadyDone =>
      case RunBody =>
        if events {
          writes := writes + [CreateEvent];
        }
        var complete;
        if w.kind == DEPLOYMENT {
          writes := writes + [Patch(KeyOf(w))];
          if a.patched.Err? {
            return;
          }
          complete := DeploymentRollout(a.patched.value, a.deployments);
        } else if w.kind == STATEFUL_SET {
          writes := writes + [Patch(KeyOf(w))];
          if a.patched.Err? {
            return;
          }
          complete := StatefulSetRollout(a.patched.value, a.statefulSets);
        } else {
          return;
        }
        if !complete {
          return;
        }
    }
    var polls;
    ok, polls := WaitForPodsOffNode(w.selector, a.listings);
    if ok && events {
      writes := writes + [CreateEvent];
    }
  }

  method DeploymentRollout(target: int, ticks: seq<DeploymentTick>) returns (complete: bool)
    ensures complete <==> FirstCompletes(target, ticks)
  {
    var v, polls := WaitForDeploymentRollout(target, ticks);
    complete := v == Complete;
  }

  method StatefulSetRollout(target: int, ticks: seq<StatefulSetTick>) returns (complete: bool)
    ensures complete <==> StsFirstCompletes(target, ticks)
  {
    var v, polls := WaitForStatefulSetRollout(target, ticks);
    complete := v == Complete;
  }
}
