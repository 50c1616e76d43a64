/** What every run of a drain guarantees, over all environments and failure points. */
module Promises {
  import opened Kube
  import opened Workloads
  import opened Trace
  import opened Drain
  import opened Phases
  import C = Checkpoints
  import E = Eviction
  import R = Runner
  import S = Resume
  import W = WorkloadRestart
  import StableSort

  /** A dry run writes nothing, over any cluster, options and failures. */
  lemma DryRunWritesNothing(o: Options, env: Env, r: Record)
    requires Possible(o, env, r) && o.dryRun
    ensures r.t.All() == []
  {
    RunsHaveShape(o, env, r);
    DryEnds(o, env, r.ok);
  }

  lemma DryEnds(o: Options, env: Env, ok: bool)
    requires o.dryRun
    ensures Beginning(o, env) == [] && Finale(o, env, ok) == []
  {}

  /** Nothing is written before the cordon: a run that stops earlier leaves no write, and a run that
      cordons begins with that patch and sends it once. */
  lemma NothingBeforeCordon(o: Options, env: Env, r: Record)
    requires Possible(o, env, r)
    ensures Stopped(o, env) ==> r.t.All() == []
    ensures SendsCordon(o, env) ==> r.t.All() != [] && r.t.All()[0] == Write.Cordon && Write.Cordon !in r.t.All()[1..]
    ensures Write.Cordon in r.t.All() <==> !Stopped(o, env) && env.node == Some(false) && !o.dryRun
  {
    RunsHaveShape(o, env, r);
    CordonsAtStart(r.t);
    if SendsCordon(o, env) {
      var rest := WriteIf(Underway(o, env) && o.Events(), CreateEvent);
      FirstOnce(r.t, Write.Cordon, rest);
    }
  }

  lemma FirstOnce(t: Parts, w: Write, rest: seq<Write>)
    requires t.begin == [w] + rest && w !in rest && w !in t.restarts && w !in t.evictions && w !in t.ending
    ensures t.All() != [] && t.All()[0] == w && w !in t.All()[1..]
  {
    assert t.All() == [w] + (rest + t.restarts + t.evictions + t.ending);
  }

  /** This run owns a cordon, fails, and was told to undo it. */
  predicate Uncordons(o: Options, env: Env, r: Record) {
    !r.ok && SendsCordon(o, env) && env.cordonAccepted && o.uncordonOnFailure
  }

  /** The node is uncordoned exactly once when a run fails after its own cordon and was told to, and
      never otherwise; nothing but the failure event follows. */
  lemma UncordonExactlyOnFailure(o: Options, env: Env, r: Record)
    requires Possible(o, env, r)
    ensures Count(r.t.All(), Write.Uncordon) == if Uncordons(o, env, r) then 1 else 0
    ensures Uncordons(o, env, r) ==> r.t.ending == [Write.Uncordon] + WriteIf(o.Events(), CreateEvent)
  {
    RunsHaveShape(o, env, r);
    UncordonsAtEnd(r.t);
    FinaleUncordons(o, env, r);
  }

  lemma FinaleUncordons(o: Options, env: Env, r: Record)
    ensures Count(Finale(o, env, r.ok), Write.Uncordon) == if Uncordons(o, env, r) then 1 else 0
    ensures Uncordons(o, env, r) ==> Finale(o, env, r.ok) == [Write.Uncordon] + WriteIf(o.Events(), CreateEvent)
  {
    var last := WriteIf(o.Events(), CreateEvent);
    assert Count(last, Write.Uncordon) == 0;
    if Uncordons(o, env, r) {
      assert Count([Write.Uncordon] + last, Write.Uncordon) == 1;
    } else {
      assert Write.Uncordon !in Finale(o, env, r.ok);
    }
  }

  /** A node that is unschedulable at the start is never patched. */
  lemma UnschedulableNodeUntouched(o: Options, env: Env, r: Record)
    requires Possible(o, env, r) && env.node == Some(true)
    ensures Write.Cordon !in r.t.All() && Write.Uncordon !in r.t.All()
  {
    NothingBeforeCordon(o, env, r);
    UncordonExactlyOnFailure(o, env, r);
    assert Write.Uncordon in r.t.All() ==> Count(r.t.All(), Write.Uncordon) > 0;
  }

  /** The checkpoint is removed in every successful run that has one, and in no other run. */
  lemma CheckpointRemovedExactlyOnSuccess(o: Options, env: Env, r: Record)
    requires Possible(o, env, r)
    ensures DeleteCheckpoint in r.t.All() <==> r.ok && o.hasPath && !o.dryRun
  {
    RunsHaveShape(o, env, r);
    CheckpointAtEnd(r.t);
    FinaleRemoves(o, env, r.ok);
  }

  lemma FinaleRemoves(o: Options, env: Env, ok: bool)
    ensures DeleteCheckpoint in Finale(o, env, ok) <==> Underway(o, env) && ok && o.hasPath && !o.dryRun
  {}

  /** The removal of a listed pod that the workload's valid selector does not select. */
  ghost predicate RemovesOther(o: Options, env: Env, w: Workload, x: Write) {
    env.eviction.listing.Ok? &&
    exists p :: p in env.eviction.listing.value && x == E.Removal(o.flags, p) && !E.Protected([w], p)
  }

  /** --only-workload is given and leaves the workload out, or --skip-workload names it. */
  predicate Filtered(o: Options, w: Workload) {
    var key := w.kind + "/" + w.namespace + "/" + w.name;
    (o.only != {} && key !in o.only) || key in o.skip
  }

  lemma FilteredMeans(o: Options, w: Workload)
    ensures Filtered(o, w) <==> o.Excludes(KeyOf(w))
  {}

  /** A filtered workload is never patched, and every pod that is evicted or deleted is one that its valid
      selector does not select in its namespace. */
  lemma FilteredWorkloadsUntouched(o: Options, env: Env, r: Record, w: Workload)
    requires env.discovered.Some? && w in env.discovered.value && Filtered(o, w)
    requires Possible(o, env, r)
    ensures Patch(KeyOf(w)) !in r.t.All()
    ensures forall x :: x in r.t.All() && (x.Evict? || x.Delete?) ==> RemovesOther(o, env, w, x)
  {
    FilteredMeans(o, w);
    RunsHaveShape(o, env, r);
    PatchesInRestarts(r.t, KeyOf(w));
    NotRestarted(o, env, w);
    forall x | x in r.t.All() && (x.Evict? || x.Delete?) ensures RemovesOther(o, env, w, x) {
      RemovalsInEvictions(r.t, x);
      RemovalLeavesAlone(o, env, w, x);
    }
  }

  lemma NotRestarted(o: Options, env: Env, w: Workload)
    requires env.discovered.Some? && o.Excludes(KeyOf(w))
    ensures KeyOf(w) !in Keys(Restarted(o, env))
  {
    PartMembers(o, env.discovered.value, false);
  }

  lemma RemovalLeavesAlone(o: Options, env: Env, w: Workload, x: Write)
    requires env.discovered.Some? && w in env.discovered.value && o.Excludes(KeyOf(w)) && EvictionWrite(o, env, x)
    ensures RemovesOther(o, env, w, x)
  {
    PartMembers(o, env.discovered.value, true);
    var p :| p in env.eviction.listing.value && !E.Protected(LeftAlone(o, env), p) && x == E.Removal(o.flags, p);
    assert w in LeftAlone(o, env);
    assert !E.Protected([w], p);
  }

  /** The API lists no two pods of one namespace and name. */
  predicate NamesIdentify(pods: seq<Pod>) {
    forall p, q :: p in pods && q in pods && p.namespace == q.namespace && p.name == q.name ==> p == q
  }

  /** A listed pod that a filtered workload selects is never evicted and never deleted. */
  lemma SelectedPodStays(o: Options, env: Env, r: Record, w: Workload, pod: Pod)
    requires env.discovered.Some? && w in env.discovered.value && Filtered(o, w)
    requires env.eviction.listing.Ok? && NamesIdentify(env.eviction.listing.value)
    requires pod in env.eviction.listing.value && E.Protected([w], pod)
    requires Possible(o, env, r)
    ensures Evict(pod.namespace, pod.name) !in r.t.All() && Delete(pod.namespace, pod.name) !in r.t.All()
  {
    FilteredWorkloadsUntouched(o, env, r, w);
    OthersOnly(o, env, w, pod, Evict(pod.namespace, pod.name));
    OthersOnly(o, env, w, pod, Delete(pod.namespace, pod.name));
  }

  lemma OthersOnly(o: Options, env: Env, w: Workload, pod: Pod, x: Write)
    requires env.eviction.listing.Ok? && NamesIdentify(env.eviction.listing.value)
    requires pod in env.eviction.listing.value && E.Protected([w], pod)
    requires x == Evict(pod.namespace, pod.name) || x == Delete(pod.namespace, pod.name)
    ensures !RemovesOther(o, env, w, x)
  {}

  /** Every patch of a run is for a discovered workload that the options do not filter. */
  lemma PatchesAreAskedFor(o: Options, env: Env, r: Record, key: string)
    requires Possible(o, env, r) && Patch(key) in r.t.All()
    ensures !o.dryRun && env.discovered.Some?
    ensures exists w :: w in env.discovered.value && KeyOf(w) == key && !Filtered(o, w)
  {
    RunsHaveShape(o, env, r);
    PatchesInRestarts(r.t, key);
    assert RestartWrite(o, env, Patch(key));
    PartMembers(o, env.discovered.value, false);
    var w :| w in Restarted(o, env) && KeyOf(w) == key;
    FilteredMeans(o, w);
  }

  /** Every removal of a run is that of a listed pod that is neither on its way out, nor finished, nor a mirror
      pod, nor a skipped DaemonSet's, and that the flags allow to go. */
  lemma RemovalsAreAllowed(o: Options, env: Env, r: Record, x: Write)
    requires Possible(o, env, r) && x in r.t.All() && (x.Evict? || x.Delete?)
    ensures !o.dryRun && env.eviction.listing.Ok?
    ensures exists p ::
      p in env.eviction.listing.value && !p.deleting && !p.phase.Succeeded? && !p.phase.Failed? && !p.mirror &&
      (o.flags.skipDaemonSets ==> forall ref :: ref in p.owners ==> ref.kind != "DaemonSet") &&
      (!o.flags.force ==>
        p.owners != [] && (forall ref :: ref in p.owners ==> ref.kind != "Job") &&
        (p.emptyDir ==> o.flags.deleteEmptyDir)) &&
      x == if o.flags.forceDeleteStandalone && p.owners == [] then Delete(p.namespace, p.name)
           else Evict(p.namespace, p.name)
  {
    RunsHaveShape(o, env, r);
    RemovalsInEvictions(r.t, x);
    assert EvictionWrite(o, env, x);
  }

  /** Events are created only when asked for, and never in a dry run. */
  lemma EventsAreAskedFor(o: Options, env: Env, r: Record)
    requires Possible(o, env, r) && CreateEvent in r.t.All()
    ensures o.emitEvents && !o.dryRun
  {
    RunsHaveShape(o, env, r);
    if CreateEvent in r.t.restarts {
      assert RestartWrite(o, env, CreateEvent);
    }
    assert CreateEvent !in r.t.evictions;
    EndEvents(o, env, r.ok);
  }

  lemma EndEvents(o: Options, env: Env, ok: bool)
    ensures CreateEvent in Beginning(o, env) || CreateEvent in Finale(o, env, ok) ==> o.emitEvents && !o.dryRun
  {}

  /** No workload is patched twice in a run: discovery lists each key once. */
  lemma PatchedAtMostOnce(o: Options, env: Env, r: Record, key: string)
    requires env.discovered.Some? && DistinctKeys(env.discovered.value) && Possible(o, env, r)
    ensures Count(r.t.All(), Patch(key)) <= 1
  {
    RunsHaveShape(o, env, r);
    PatchesInRestarts(r.t, key);
    if Underway(o, env) {
      PartDistinct(o, env.discovered.value, false);
      BodyWrites(o, env, r);
      OnceAtMost(r.t.restarts, Patch(key));
    }
  }

  /** Pods are evicted only after every dispatched workload has been restarted. */
  lemma EvictionsFollowRestarts(o: Options, env: Env, r: Record)
    requires Underway(o, env) && r.t.evictions != [] && Possible(o, env, r)
    ensures match DispatchOf(o, env, r.sorted)
      case Refuse => false
      case NothingLeft => true
      case Execute(c) => |env.schedule(c)| > 0 && forall i: nat :: i < |c.list| ==> i in Final(env, c).restarted
  {
    AllRestarted(o, env, r.sorted, r.t.restarts);
  }

  lemma AllRestarted(o: Options, env: Env, sorted: seq<Workload>, writes: seq<Write>)
    requires o.node != "" && RestartsDone(o, env, sorted, true, writes) && Fair(env)
    ensures match DispatchOf(o, env, sorted)
      case Refuse => false
      case NothingLeft => true
      case Execute(c) => |env.schedule(c)| > 0 && forall i: nat :: i < |c.list| ==> i in Final(env, c).restarted
  {
    match DispatchOf(o, env, sorted)
    case Refuse =>
    case NothingLeft =>
    case Execute(c) =>
      assert R.Ended(c, env.schedule(c));
      R.RunnerOutcome(c, env.schedule(c), |env.schedule(c)| - 1);
  }

  /** A drain past its cordon fails only for a reason: its checkpoint is refused, the restart of some
      workload does not work, the pods cannot be listed, or the eviction step has a cause of its own. */
  lemma FailuresHaveCauses(o: Options, env: Env, r: Record)
    requires Underway(o, env) && !r.ok && Possible(o, env, r)
    ensures match DispatchOf(o, env, r.sorted)
      case Refuse => true
      case NothingLeft => EvictionCause(o, env, r.log)
      case Execute(c) => RestartCause(o, env, c) || EvictionCause(o, env, r.log)
  {
    if RestartsDone(o, env, r.sorted, false, r.t.restarts) && DispatchOf(o, env, r.sorted).Execute? {
      RestartFailed(o, env, r.sorted, r.t.restarts);
    }
  }

  lemma RestartFailed(o: Options, env: Env, sorted: seq<Workload>, writes: seq<Write>)
    requires o.node != "" && DispatchOf(o, env, sorted).Execute?
    requires RestartsDone(o, env, sorted, false, writes) && Fair(env)
    ensures RestartCause(o, env, DispatchOf(o, env, sorted).config)
  {
    var c := DispatchOf(o, env, sorted).config;
    assert R.Ended(c, env.schedule(c));
    R.RunnerOutcome(c, env.schedule(c), |env.schedule(c)| - 1);
    var i: nat :| i < |c.list| && !c.ReturnsNil(i);
    assert c.restart(c.list[i]) == W.Of(c.list[i], o.dryRun, c.events, env.answers(c.list[i]));
    assert c.list[i] in c.list;
  }

  ghost predicate RestartCause(o: Options, env: Env, c: R.Config) {
    !o.dryRun && exists w :: w in c.list && !W.Works(w, env.answers(w))
  }

  ghost predicate EvictionCause(o: Options, env: Env, log: seq<E.Look>)
    requires env.discovered.Some?
  {
    env.eviction.listing.Err? ||
    (!o.dryRun && E.HasCause(o.flags, LeftAlone(o, env), o.interval, o.timeout, env.eviction, log))
  }

  /** The workload's rolling restart returned nil in this very run: it was admitted, its body, if it ran,
      patched it and was seen rolled out, and the node was seen free of its pods. */
  ghost predicate RestartedNow(o: Options, env: Env, r: Record, w: Workload)
    requires o.node != ""
  {
    W.Works(w, env.answers(w)) && (env.answers(w).admission.RunBody? ==> Patch(KeyOf(w)) in r.t.restarts) &&
    match DispatchOf(o, env, r.sorted)
    case Execute(c) =>
      |env.schedule(c)| > 0 && exists i: nat :: i < |c.list| && c.list[i] == w && i in Final(env, c).restarted
    case _ => false
  }

  /** The checkpoint of a resumed run allows the workload to be skipped. */
  predicate SkippedNow(o: Options, env: Env, sorted: seq<Workload>, w: Workload) {
    o.Resumes() &&
    var loaded := S.Loaded(env.file, Settings(o, env, sorted));
    loaded.Some? && C.CanSkip(loaded.value, w, env.podCount(w)) == Ok(true)
  }

  /** On the file's own fields: it is this node's and not another known context's, it records the workload as
      completed, and UID and generation agree wherever both are known, or no live pod of it is on the node. */
  lemma {:induction false} SkippedExactly(o: Options, env: Env, sorted: seq<Workload>, w: Workload)
    ensures SkippedNow(o, env, sorted, w) <==>
      o.resume && o.hasPath && env.file.Some? && env.readable && env.file.value.Whole? &&
      var d := env.file.value.data;
      (d.nodeName == "" || d.nodeName == o.node) &&
      (d.context == "" || o.context == "" || d.context == o.context) &&
      KeyOf(w) in d.completed && d.completed[KeyOf(w)] &&
      if KeyOf(w) in d.workloads then
        var e := d.workloads[KeyOf(w)];
        (e.uid == "" || w.uid == "" || e.uid == w.uid) &&
        (e.generation == 0 || w.generation == 0 || e.generation == w.generation)
      else env.podCount(w) == Ok(0)
  {
    var loaded := S.Loaded(env.file, Settings(o, env, sorted));
    if loaded.Some? {
      C.CanSkipExactly(loaded.value, w, env.podCount(w));
    }
  }

  /** A listed workload that is not skipped is dispatched. */
  lemma DispatchedOrSkipped(o: Options, env: Env, sorted: seq<Workload>, w: Workload) returns (c: R.Config)
    requires o.node != "" && !DispatchOf(o, env, sorted).Refuse? && w in sorted && !SkippedNow(o, env, sorted, w)
    ensures DispatchOf(o, env, sorted) == Execute(c) && w in c.list
  {
    var st := Settings(o, env, sorted);
    var d := S.Loaded(env.file, st).value;
    C.KeptMeaning(d, sorted, st.pods);
    var i :| 0 <= i < |sorted| && sorted[i] == w;
    assert st.pods[i] == env.podCount(w);
    assert w in S.Dispatched(d, st);
    c := Config(o, env, sorted, d);
  }

  lemma DispatchedWasRestarted(o: Options, env: Env, r: Record, c: R.Config, w: Workload)
    requires o.node != "" && !o.dryRun && DispatchOf(o, env, r.sorted) == Execute(c) && w in c.list
    requires RestartsDone(o, env, r.sorted, true, r.t.restarts) && Fair(env)
    ensures RestartedNow(o, env, r, w)
  {
    assert R.Ended(c, env.schedule(c));
    var last := |env.schedule(c)| - 1;
    R.RunnerOutcome(c, env.schedule(c), last);
    R.RunnerWrites(c, env.schedule(c), last);
    var i: nat :| i < |c.list| && c.list[i] == w;
    assert i in Final(env, c).restarted && c.ReturnsNil(i);
    assert c.restart(w) == W.Of(w, o.dryRun, c.events, env.answers(w));
    W.OnePatch(w, o.dryRun, c.events, env.answers(w));
  }

  /** Every workload that is not filtered had its rolling restart return nil, in this run or as the
      checkpoint vouches; and every pod of the final listing is settled, given UIDs that identify pods. */
  ghost predicate Drained(o: Options, env: Env, r: Record)
    requires o.node != ""
  {
    Underway(o, env) && env.eviction.listing.Ok? &&
    (forall w :: w in Restarted(o, env) ==> RestartedNow(o, env, r, w) || SkippedNow(o, env, r.sorted, w)) &&
    (E.UidsIdentify(env.eviction.listing.value) ==>
      E.AllSettled(o.flags, LeftAlone(o, env), env.eviction.listing.value, r.log))
  }

  /** What success means. */
  lemma SuccessMeansDrained(o: Options, env: Env, r: Record)
    requires Possible(o, env, r)
    ensures r.ok && !o.dryRun ==> Drained(o, env, r)
  {
    if r.ok && !o.dryRun {
      StableSort.StablySortedPermutes(Restarted(o, env), r.sorted);
      SameMembers(Restarted(o, env), r.sorted);
      forall w | w in Restarted(o, env) ensures RestartedNow(o, env, r, w) || SkippedNow(o, env, r.sorted, w) {
        if !SkippedNow(o, env, r.sorted, w) {
          var c := DispatchedOrSkipped(o, env, r.sorted, w);
          DispatchedWasRestarted(o, env, r, c, w);
        }
      }
    }
  }
}
