/** A whole drain of one node: phases in order, deferred handlers, and everything it writes. */
module Drain {
  import opened Kube
  import opened Workloads
  import opened Trace
  import opened StableSort
  import B = Batches
  import C = Checkpoints
  import E = Eviction
  import F = Preflight
  import G = Groups
  import R = Runner
  import W = WorkloadRestart
  import S = Resume

  datatype Options = Options(
    node: string, context: string, dryRun: bool, uncordonOnFailure: bool, emitEvents: bool,
    resume: bool, hasPath: bool, maxConcurrency: int, preflight: F.Mode,
    skip: set<string>, only: set<string>, flags: E.Flags, interval: int, timeout: int)
  {
    predicate Events() { emitEvents && !dryRun }

    predicate Resumes() { resume && hasPath }

    /** Filtered out by --skip-workload or --only-workload. */
    predicate Excludes(key: string) {
      (only != {} && key !in only) || key in skip
    }
  }

  /** Everything the drain asks of its environment, and the answers. */
  datatype Env = Env(
    node: Option<bool>,                     // None when the node is not found, else whether it is unschedulable
    discovered: Option<seq<Workload>>,      // None when discovery fails
    inspection: Workload -> F.Inspection,
    stateful: Workload -> bool,
    budgets: F.Budgets,
    early: Option<C.Content>, earlyReadable: bool,   // the checkpoint file before the cordon
    file: Option<C.Content>, readable: bool,         // and when the restarts begin
    podCount: Workload -> Result<nat, ApiError>,
    cordonAccepted: bool,
    answers: Workload -> W.Answers,         // what each restart learns
    schedule: R.Config -> seq<R.State>,     // the interleaving of the restart workers
    eviction: E.Env)

  /** The environment lets every run of the workers come to its end. */
  ghost predicate Fair(env: Env) {
    forall c: R.Config :: c.Valid() ==> R.Ended(c, env.schedule(c))
  }

  ghost function CompleteRun(c: R.Config): (ss: seq<R.State>)
    ensures c.Valid() ==> R.Ended(c, ss)
  {
    if c.Valid() then
      assert exists ss :: R.Ended(c, ss) by {
        assert R.Run(c, [R.Init(c)]);
        var more := R.EveryRunCanEnd(c, [R.Init(c)]);
      }
      var ss :| R.Ended(c, ss);
      ss
    else []
  }

  /** Every environment can be given fair schedules: no configuration leaves the workers stuck. */
  lemma FairSchedulesExist(env: Env) returns (schedule: R.Config -> seq<R.State>)
    ensures Fair(env.(schedule := schedule))
  {
    schedule := (c: R.Config) => CompleteRun(c);
    forall c: R.Config | c.Valid() ensures R.Ended(c, schedule(c)) {
      assert schedule(c) == CompleteRun(c);
    }
  }

  function Final(env: Env, c: R.Config): R.State
    requires |env.schedule(c)| > 0
  {
    env.schedule(c)[|env.schedule(c)| - 1]
  }

  // ----- filtering -----

  class RunState {
    var protected: seq<Workload>

    constructor ()
      ensures protected == []
    {
      protected := [];
    }
  }

  /** The workloads whose keys are excluded, or those whose keys are not, in order. */
  function Part(o: Options, ws: seq<Workload>, excluded: bool): seq<Workload> {
    if ws == [] then []
    else
      var n := |ws| - 1;
      Part(o, ws[..n], excluded) + if o.Excludes(KeyOf(ws[n])) == excluded then [ws[n]] else []
  }

  lemma {:induction false} PartMembers(o: Options, ws: seq<Workload>, excluded: bool)
    ensures forall w :: w in Part(o, ws, excluded) <==> w in ws && o.Excludes(KeyOf(w)) == excluded
  {
    if ws != [] {
      var front, last := ws[..|ws| - 1], ws[|ws| - 1];
      PartMembers(o, front, excluded);
      assert forall w :: w in ws <==> w in front || w == last by {
        assert ws == front + [last];
      }
    }
  }

  lemma {:induction false} PartDistinct(o: Options, ws: seq<Workload>, excluded: bool)
    requires DistinctKeys(ws)
    ensures DistinctKeys(Part(o, ws, excluded))
  {
    if ws != [] {
      var front, last := ws[..|ws| - 1], ws[|ws| - 1];
      PartDistinct(o, front, excluded);
      PartMembers(o, front, excluded);
      var part := Part(o, front, excluded);
      forall i | 0 <= i < |part| ensures KeyOf(part[i]) != KeyOf(last) {
        assert part[i] in front;
        var j :| 0 <= j < |front| && front[j] == part[i];
        assert ws[j] == front[j];
      }
    }
  }

  lemma {:induction false} PartAll(o: Options, ws: seq<Workload>)
    requires o.skip == {} && o.only == {}
    ensures Part(o, ws, false) == ws && Part(o, ws, true) == []
  {
    if ws != [] {
      PartAll(o, ws[..|ws| - 1]);
      assert ws == ws[..|ws| - 1] + [ws[|ws| - 1]];
    }
  }

  lemma CountAppended(ws: seq<Workload>, last: Workload, w: Workload)
    ensures multiset(ws + [last])[w] == multiset(ws)[w] + if w == last then 1 else 0
  {}

  lemma {:induction false} PartCounts(o: Options, ws: seq<Workload>, excluded: bool, w: Workload)
    ensures multiset(Part(o, ws, excluded))[w] == if o.Excludes(KeyOf(w)) == excluded then multiset(ws)[w] else 0
  {
    if ws != [] {
      var front, last := ws[..|ws| - 1], ws[|ws| - 1];
      PartCounts(o, front, excluded, w);
      assert ws == front + [last];
      CountAppended(front, last, w);
      CountAppended(Part(o, front, excluded), last, w);
      assert Part(o, front, excluded) + [] == Part(o, front, excluded);
    }
  }

  /** Filtering splits the list in two: nothing is lost, and no key is on both sides. */
  lemma {:induction false} FilterSplits(o: Options, ws: seq<Workload>)
    ensures multiset(Part(o, ws, false)) + multiset(Part(o, ws, true)) == multiset(ws)
    ensures Keys(Part(o, ws, false)) !! Keys(Part(o, ws, true))
  {
    PartMembers(o, ws, false);
    PartMembers(o, ws, true);
    forall w: Workload
      ensures multiset(Part(o, ws, false))[w] + multiset(Part(o, ws, true))[w] == multiset(ws)[w]
    {
      PartCounts(o, ws, false, w);
      PartCounts(o, ws, true, w);
    }
  }

  method FilterWorkloads(o: Options, state: RunState, ws: seq<Workload>) returns (filtered: seq<Workload>)
    modifies state
    ensures filtered == Part(o, ws, false)
    ensures state.protected == Part(o, ws, true)
    ensures forall w :: w in filtered <==>
      w in ws && var key := w.kind + "/" + w.namespace + "/" + w.name;
      (o.only == {} || key in o.only) && key !in o.skip
    ensures forall w :: w in state.protected <==> w in ws && w !in filtered
  {
    PartMembers(o, ws, false);
    PartMembers(o, ws, true);
    state.protected := [];
    if o.skip == {} && o.only == {} {
      PartAll(o, ws);
      return ws;
    }
    filtered := [];
    for i := 0 to |ws|
      invariant filtered == Part(o, ws[..i], false)
      invariant state.protected == Part(o, ws[..i], true)
    {
      var key := KeyOf(ws[i]);
      assert ws[..i + 1][..i] == ws[..i];
      if o.only != {} && key !in o.only {
        state.protected := state.protected + [ws[i]];
        continue;
      }
      if key in o.skip {
        state.protected := state.protected + [ws[i]];
        continue;
      }
      filtered := filtered + [ws[i]];
    }
    assert ws[..|ws|] == ws;
  }

  // ----- restarts -----

  function Settings(o: Options, env: Env, sorted: seq<Workload>): S.Settings {
    S.Settings(o.node, o.context, o.resume, o.dryRun, o.hasPath, o.emitEvents, o.maxConcurrency, sorted,
               seq(|sorted|, i requires 0 <= i < |sorted| => env.podCount(sorted[i])), env.readable, env.answers)
  }

  /** The configuration of the worker machine for a sorted list and a loaded checkpoint. */
  function Config(o: Options, env: Env, sorted: seq<Workload>, d: C.Data): R.Config
    requires o.node != ""
  {
    S.RunnerConfig(env.file, d, Settings(o, env, sorted))
  }

  /** What becomes of a sorted list: the run is refused, has nothing left to do, or dispatches. */
  datatype Dispatch = Refuse | NothingLeft | Execute(config: R.Config)

  ghost function DispatchOf(o: Options, env: Env, sorted: seq<Workload>): Dispatch
    requires o.node != ""
  {
    var st := Settings(o, env, sorted);
    if sorted == [] then NothingLeft
    else if S.Loaded(env.file, st).None? then Refuse
    else
      var d := S.Loaded(env.file, st).value;
      if o.Resumes() && exists i :: 0 <= i < |sorted| && C.CanSkip(d, sorted[i], st.pods[i]).Err? then Refuse
      else if S.Dispatched(d, st) == [] then NothingLeft
      else Execute(Config(o, env, sorted, d))
  }

  /** When the checkpoint stops a run with something to restart: it is resumed, and the file cannot be read
      or parsed, or is another node's, or another known context's, or vouches for a workload without
      identity whose pods cannot be counted. */
  lemma {:induction false} RefusedExactly(o: Options, env: Env, sorted: seq<Workload>)
    requires o.node != "" && sorted != []
    ensures DispatchOf(o, env, sorted).Refuse? <==>
      o.resume && o.hasPath && env.file.Some? &&
      (!env.readable || env.file.value.Garbage? ||
       var d := env.file.value.data;
       (d.nodeName != "" && d.nodeName != o.node) ||
       (d.context != "" && o.context != "" && d.context != o.context) ||
       exists w :: w in sorted && KeyOf(w) in d.completed && d.completed[KeyOf(w)] && KeyOf(w) !in d.workloads &&
         env.podCount(w).Err?)
  {
    var st := Settings(o, env, sorted);
    if S.Loaded(env.file, st).Some? {
      var d := S.Loaded(env.file, st).value;
      forall i | 0 <= i < |sorted|
        ensures C.CanSkip(d, sorted[i], st.pods[i]).Err? <==>
          KeyOf(sorted[i]) in d.completed && d.completed[KeyOf(sorted[i])] && KeyOf(sorted[i]) !in d.workloads &&
          env.podCount(sorted[i]).Err?
      {
        C.CanSkipExactly(d, sorted[i], st.pods[i]);
      }
      assert forall i :: 0 <= i < |sorted| ==> sorted[i] in sorted;
    }
  }

  /** Every state that the workers come to keeps to --max-concurrency, as the options give it. */
  lemma {:induction false} WorkersObeyOptions(o: Options, env: Env, sorted: seq<Workload>, k: nat)
    requires o.node != "" && DispatchOf(o, env, sorted).Execute?
    requires k < |env.schedule(DispatchOf(o, env, sorted).config)| && Fair(env)
    ensures var c := DispatchOf(o, env, sorted).config;
      var now := env.schedule(c)[k];
      (o.maxConcurrency > 0 ==>
        G.CountActive(now.group.jobs) <= o.maxConcurrency &&
        forall j: nat, i: nat | i < |now.group.jobs| && j / o.maxConcurrency < i / o.maxConcurrency ::
          !now.group.jobs[i].Queued? ==> j in now.restarted) &&
      (!o.hasPath || o.dryRun ==> now.file == env.file) &&
      (now.checkpoint.nodeName == o.node && now.checkpoint.context == o.context) &&
      (CreateEvent in now.log ==> o.emitEvents && !o.dryRun)
  {
    var c := DispatchOf(o, env, sorted).config;
    var st := Settings(o, env, sorted);
    var d := S.Loaded(env.file, st).value;
    S.RunnerConfigValid(env.file, d, st);
    assert R.Ended(c, env.schedule(c)) && c == S.RunnerConfig(env.file, d, st);
    S.RunObeysLimit(env.file, d, st, env.schedule(c), k, B.Limit(o.maxConcurrency, |S.Dispatched(d, st)|));
    S.RunRecordsWorkers(env.file, d, st, env.schedule(c), k);
    S.RunObeysFlags(env.file, d, st, env.schedule(c), k);
  }

  /** The result and the writes of the worker machine at the end of its run. */
  ghost predicate RanTo(env: Env, c: R.Config, ok: bool, writes: seq<Write>) {
    |env.schedule(c)| > 0 && ok == (Final(env, c).group.outcome == Some(true)) && writes == Final(env, c).log
  }

  /** Restarts the workloads, sorting the given slice in place. */
  method RunWorkloads(o: Options, env: Env, a: array<Workload>)
    returns (ok: bool, writes: seq<Write>, sorted: seq<Workload>)
    requires o.node != "" && Fair(env)
    modifies a
    ensures StablySorted(old(a[..]), sorted) && (a.Length > 0 ==> a[..] == sorted)
    ensures RestartsDone(o, env, sorted, ok, writes)
  {
    ok, writes, sorted := true, [], a[..];
    if a.Length == 0 {
      return;
    }
    SortByPriority(a);
    sorted := a[..];
    var st := Settings(o, env, sorted);
    var resumed, list := ResumeFrom(o, env, sorted, st);
    if resumed.Err? {
      return false, [], sorted;
    }
    if list == [] {
      return;
    }
    ok, writes := Dispatched(o, env, sorted, resumed.value);
  }

  /** Loads and validates the checkpoint of a resumed run, and asks of every workload whether it may be
      skipped; a fresh run starts from an empty checkpoint. */
  method ResumeFrom(o: Options, env: Env, sorted: seq<Workload>, st: S.Settings)
    returns (r: Result<C.Data, string>, list: seq<Workload>)
    requires o.node != "" && sorted != [] && st == Settings(o, env, sorted)
    ensures r.Err? <==> DispatchOf(o, env, sorted).Refuse?
    ensures r.Ok? ==> S.Loaded(env.file, st) == Some(r.value) && list == S.Dispatched(r.value, st)
  {
    if !(o.resume && o.hasPath) {
      return Ok(C.EMPTY), sorted;
    }
    var read := C.ReadFile(env.file, env.readable);
    if read.Err? || !C.Accepts(read.value, o.node, o.context) {
      return Err("checkpoint refused"), [];
    }
    var remaining := C.FilterCompleted(read.value, sorted, st.pods);
    if remaining.Err? {
      return Err("legacy entry not verified"), [];
    }
    r, list := read, remaining.value;
  }

  /** Runs the workers to their end. */
  method Dispatched(o: Options, env: Env, sorted: seq<Workload>, d: C.Data) returns (ok: bool, writes: seq<Write>)
    requires o.node != "" && Fair(env) && sorted != []
    requires DispatchOf(o, env, sorted) == Execute(Config(o, env, sorted, d))
    ensures RestartsDone(o, env, sorted, ok, writes)
  {
    var c := Config(o, env, sorted, d);
    S.RunnerConfigValid(env.file, d, Settings(o, env, sorted));
    assert R.Ended(c, env.schedule(c));
    var final := env.schedule(c)[|env.schedule(c)| - 1];
    ok, writes := final.group.outcome == Some(true), final.log;
  }

  // ----- cordon and uncordon -----

  /** Cordons the node unless it is unschedulable already or this is a dry run. */
  method Cordon(o: Options, unschedulable: bool, accepted: bool)
    returns (cordonedByUs: bool, ok: bool, writes: seq<Write>)
    ensures writes == if unschedulable || o.dryRun then [] else [Write.Cordon]
    ensures ok <==> writes == [] || accepted
    ensures cordonedByUs <==> writes != [] && accepted
  {
    if unschedulable {
      return false, true, [];
    }
    if o.dryRun {
      return false, true, [];
    }
    writes := [Write.Cordon];
    if !accepted {
      return false, false, writes;
    }
    cordonedByUs, ok := true, true;
  }

  // ----- before the cordon -----

  /** Filtering, pre-flight and the early checkpoint check: nothing is written, and the drain goes on
      with the workloads that are not excluded or stops. */
  method PrepareBeforeCordon(o: Options, env: Env, state: RunState, ws: seq<Workload>)
    returns (ok: bool, filtered: seq<Workload>)
    modifies state
    ensures filtered == Part(o, ws, false) && state.protected == Part(o, ws, true)
    ensures ok <==> !PreflightAborts(o, env, filtered) && !EarlyCheckpointRefused(o, env)
  {
    filtered := FilterWorkloads(o, state, ws);
    ok := false;
    if o.preflight != F.Off && filtered != [] {
      var inspections := seq(|filtered|, i requires 0 <= i < |filtered| => env.inspection(filtered[i]));
      var stateful := seq(|filtered|, i requires 0 <= i < |filtered| => env.stateful(filtered[i]));
      var issues, abort := F.RunPreflight(o.preflight, filtered, inspections, stateful, env.budgets);
      if abort {
        return;
      }
    }
    if o.resume && o.hasPath {
      var read := C.ReadFile(env.early, env.earlyReadable);
      if read.Err? {
        return;
      }
      if !C.Accepts(read.value, o.node, o.context) {
        return;
      }
    }
    ok := true;
  }

  predicate PreflightAborts(o: Options, env: Env, ws: seq<Workload>) {
    var inspections := seq(|ws|, i requires 0 <= i < |ws| => env.inspection(ws[i]));
    o.preflight == F.Strict && (None in inspections || F.HasRisk(inspections))
  }

  predicate EarlyCheckpointRefused(o: Options, env: Env) {
    o.Resumes() &&
    var read := C.ReadFile(env.early, env.earlyReadable);
    read.Err? || !C.Accepts(read.value, o.node, o.context)
  }

  // ----- the whole run -----

  /** The writes of a run, phase by phase. */
  datatype Parts = Parts(begin: seq<Write>, restarts: seq<Write>, evictions: seq<Write>, ending: seq<Write>) {
    function All(): seq<Write> {
      begin + restarts + evictions + ending
    }
  }

  const NOTHING := Parts([], [], [], [])

  /** The workloads the drain restarts, and those it leaves alone. */
  function Restarted(o: Options, env: Env): seq<Workload>
    requires env.discovered.Some?
  {
    Part(o, env.discovered.value, false)
  }

  function LeftAlone(o: Options, env: Env): seq<Workload>
    requires env.discovered.Some?
  {
    Part(o, env.discovered.value, true)
  }

  /** The run ends before it reaches the cordon. */
  predicate Stopped(o: Options, env: Env) {
    env.node.None? || env.discovered.None? ||
    PreflightAborts(o, env, Restarted(o, env)) || EarlyCheckpointRefused(o, env)
  }

  /** Which runs end before the cordon: the node is not found, discovery fails, strict pre-flight meets a risk
      or an object it cannot inspect among the workloads to restart, or the checkpoint to resume from is
      unreadable, corrupt, another node's or another known context's. */
  lemma {:induction false} StoppedExactly(o: Options, env: Env)
    ensures Stopped(o, env) <==>
      env.node.None? || env.discovered.None? ||
      (o.preflight.Strict? && exists w :: w in Restarted(o, env) && Risky(env, w)) ||
      (o.resume && o.hasPath && env.early.Some? &&
       (!env.earlyReadable || env.early.value.Garbage? ||
        var d := env.early.value.data;
        (d.nodeName != "" && d.nodeName != o.node) ||
        (d.context != "" && o.context != "" && d.context != o.context)))
  {
    if env.node.Some? && env.discovered.Some? {
      RisksFound(o, env, Restarted(o, env));
    }
  }

  /** The workload's object cannot be inspected, or is found at risk. */
  predicate Risky(env: Env, w: Workload) {
    F.Troubled(env.inspection(w))
  }

  lemma RisksFound(o: Options, env: Env, ws: seq<Workload>)
    ensures PreflightAborts(o, env, ws) <==>
      o.preflight.Strict? && exists w :: w in ws && Risky(env, w)
  {
    var inspections := seq(|ws|, i requires 0 <= i < |ws| => env.inspection(ws[i]));
    assert forall i :: 0 <= i < |ws| ==> ws[i] in ws && inspections[i] == env.inspection(ws[i]);
    if w :| w in ws && env.inspection(w).None? {
      var i :| 0 <= i < |ws| && ws[i] == w;
      assert inspections[i] in inspections;
    }
    if w, x :| w in ws && env.inspection(w).Some? && x in env.inspection(w).value && x.risk {
      var i :| 0 <= i < |ws| && ws[i] == w;
      var j :| 0 <= j < |inspections[i].value| && inspections[i].value[j] == x;
      assert inspections[i].value[j].risk;
    }
  }

  /** This run sends the cordon patch. */
  predicate SendsCordon(o: Options, env: Env) {
    !Stopped(o, env) && env.node == Some(false) && !o.dryRun
  }

  predicate CordonRefused(o: Options, env: Env) {
    SendsCordon(o, env) && !env.cordonAccepted
  }

  /** The run is past the cordon step: its deferred handlers are in place. */
  predicate Underway(o: Options, env: Env) {
    !Stopped(o, env) && !CordonRefused(o, env)
  }

  /** What a run may come to. `sorted` is the dispatch order, `log` the GETs of the eviction step. */
  ghost predicate Outcome(o: Options, env: Env, ok: bool, t: Parts, sorted: seq<Workload>, log: seq<E.Look>)
    requires o.node != ""
  {
    (Stopped(o, env) ==> !ok && t == NOTHING) &&
    (CordonRefused(o, env) ==> !ok && t == NOTHING.(begin := [Write.Cordon])) &&
    (Underway(o, env) ==>
      t.begin == WriteIf(SendsCordon(o, env), Write.Cordon) + WriteIf(o.Events(), CreateEvent) &&
      t.ending == Ending(o, env, ok) &&
      StablySorted(Restarted(o, env), sorted) &&
      BodyDone(o, env, ok, t, sorted, log))
  }

  /** Restarts come first; pods are evicted only if all of them succeeded. */
  ghost predicate BodyDone(o: Options, env: Env, ok: bool, t: Parts, sorted: seq<Workload>, log: seq<E.Look>)
    requires o.node != "" && env.discovered.Some?
  {
    || (RestartsDone(o, env, sorted, false, t.restarts) && !ok && t.evictions == [])
    || (RestartsDone(o, env, sorted, true, t.restarts) && EvictionsDone(o, env, ok, t.evictions, log))
  }

  /** On success the checkpoint is removed and the end announced; on failure the deferred handlers run:
      the uncordon, if this run cordoned the node and was told to, and then the failure event. */
  function Ending(o: Options, env: Env, ok: bool): seq<Write> {
    if ok then WriteIf(o.hasPath && !o.dryRun, DeleteCheckpoint) + WriteIf(o.Events(), CreateEvent)
    else WriteIf(SendsCordon(o, env) && o.uncordonOnFailure, Write.Uncordon) + WriteIf(o.Events(), CreateEvent)
  }

  ghost predicate RestartsDone(o: Options, env: Env, sorted: seq<Workload>, ok: bool, writes: seq<Write>)
    requires o.node != ""
  {
    match DispatchOf(o, env, sorted)
    case Refuse => !ok && writes == []
    case NothingLeft => ok && writes == []
    case Execute(c) => c.Valid() && RanTo(env, c, ok, writes)
  }

  ghost predicate EvictionsDone(o: Options, env: Env, ok: bool, writes: seq<Write>, log: seq<E.Look>)
    requires env.discovered.Some?
  {
    var listing := env.eviction.listing;
    (ok ==> listing.Ok?) && (o.dryRun || listing.Err? ==> writes == []) &&
    (listing.Ok? ==> E.AllJustified(o.flags, LeftAlone(o, env), listing.value, writes)) &&
    (listing.Ok? && !o.dryRun && E.HasBlocked(o.flags, LeftAlone(o, env), listing.value) ==> !ok && writes == []) &&
    (ok && !o.dryRun && E.UidsIdentify(listing.value) ==>
      E.AllSettled(o.flags, LeftAlone(o, env), listing.value, log)) &&
    (!ok && listing.Ok? ==>
      !o.dryRun && E.HasCause(o.flags, LeftAlone(o, env), o.interval, o.timeout, env.eviction, log))
  }

  /** Drains the node. The API holds no node without a name. */
  method Run(o: Options, env: Env) returns (ok: bool, t: Parts, sorted: seq<Workload>, log: seq<E.Look>)
    requires o.node != "" && Fair(env)
    ensures Outcome(o, env, ok, t, sorted, log)
  {
    ok, t, sorted, log := false, NOTHING, [], [];
    var state := new RunState();
    if env.node.None? {
      return;
    }
    if env.discovered.None? {
      return;
    }
    var prepared, workloads := PrepareBeforeCordon(o, env, state, env.discovered.value);
    if !prepared {
      return;
    }
    var cordonedByUs, cordonOk, cordonWrites := Cordon(o, env.node.value, env.cordonAccepted);
    t := t.(begin := cordonWrites);
    if !cordonOk {
      return;
    }
    if o.emitEvents && !o.dryRun {
      t := t.(begin := t.begin + [CreateEvent]);
    }
    ok, t, sorted, log := DrainCordoned(o, env, state.protected, workloads, t);
    if !ok {
      if cordonedByUs && o.uncordonOnFailure {
        t := t.(ending := t.ending + [Write.Uncordon]);
      }
      if o.emitEvents && !o.dryRun {
        t := t.(ending := t.ending + [CreateEvent]);
      }
    }
  }

  /** Restarts, evictions and, on success, the removal of the checkpoint. */
  method DrainCordoned(o: Options, env: Env, protected: seq<Workload>, workloads: seq<Workload>, before: Parts)
    returns (ok: bool, t: Parts, sorted: seq<Workload>, log: seq<E.Look>)
    requires o.node != "" && Fair(env)
    requires env.discovered.Some? && protected == LeftAlone(o, env) && workloads == Restarted(o, env)
    requires before.restarts == [] && before.evictions == [] && before.ending == []
    ensures t.begin == before.begin
    ensures t.ending == if ok then Ending(o, env, true) else []
    ensures StablySorted(workloads, sorted)
    ensures BodyDone(o, env, ok, t, sorted, log)
  {
    t, log := before, [];
    var a := new Workload[|workloads|](i requires 0 <= i < |workloads| => workloads[i]);
    assert a[..] == workloads;
    var restarts;
    ok, restarts, sorted := RunWorkloads(o, env, a);
    t := t.(restarts := restarts);
    assert RestartsDone(o, env, sorted, ok, t.restarts);
    if !ok {
      return;
    }
    var evictions, looks;
    ok, evictions, looks := E.EvictRemaining(o.flags, protected, o.dryRun, o.interval, o.timeout, env.eviction);
    t, log := t.(evictions := evictions), looks;
    assert EvictionsDone(o, env, ok, t.evictions, log);
    if !ok {
      return;
    }
    if o.hasPath && !o.dryRun {
      t := t.(ending := t.ending + [DeleteCheckpoint]);
    }
    if o.emitEvents && !o.dryRun {
      t := t.(ending := t.ending + [CreateEvent]);
    }
  }
}
