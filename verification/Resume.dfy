/** Chains of runs that share one checkpoint file: crashed, failed, resumed and fresh ones. */
module Resume {
  import opened Kube
  import opened Workloads
  import opened Checkpoints
  import B = Batches
  import G = Groups
  import R = Runner
  import T = Trace
  import W = WorkloadRestart

  /** What one run is started with, and what it finds on its node. */
  datatype Settings = Settings(
    node: string, context: string, resume: bool, dryRun: bool, hasPath: bool, events: bool, maxConcurrency: int,
    sorted: seq<Workload>,                    // the discovered workloads, sorted
    pods: seq<Result<nat, ApiError>>,         // pod counts of those workloads on the node
    readable: bool,
    answers: Workload -> W.Answers)           // what each restart learns from its environment
  {
    /** A run reaches its workloads only for a node that exists, so its name is not empty. */
    predicate Valid() {
      node != "" && |pods| == |sorted|
    }
  }

  /** The checkpoint a run starts from; None when the run stops before its first workload. */
  function Loaded(file: Option<Content>, st: Settings): Option<Data> {
    if !(st.resume && st.hasPath) then Some(EMPTY)
    else match ReadFile(file, st.readable)
      case Err(_) => None
      case Ok(d) => if Accepts(d, st.node, st.context) then Some(d) else None
  }

  /** The workloads a run dispatches. */
  function Dispatched(d: Data, st: Settings): seq<Workload>
    requires st.Valid()
  {
    if st.resume && st.hasPath then Kept(d, st.sorted, st.pods) else st.sorted
  }

  function RunnerConfig(file: Option<Content>, d: Data, st: Settings): R.Config
    requires st.Valid()
  {
    var list := Dispatched(d, st);
    R.Config(list, B.Limit(st.maxConcurrency, |list|), st.dryRun, st.hasPath && !st.dryRun, st.events && !st.dryRun,
             d.For(st.node, st.context), file, w => W.Of(w, st.dryRun, st.events && !st.dryRun, st.answers(w)))
  }

  /** What a run does with its options, in every state of every interleaving: MaxConcurrency, when positive,
      bounds the restarts under way; a worker that has started proves that every worker of an earlier batch
      was restarted; and a worker may start as soon as one of its batch has. A limit of zero or less is one
      batch of everything. */
  lemma {:induction false} RunObeysLimit(file: Option<Content>, d: Data, st: Settings, ss: seq<R.State>, k: nat, m: nat)
    requires st.Valid() && Dispatched(d, st) != [] && R.Run(RunnerConfig(file, d, st), ss) && k < |ss|
    requires m == if st.maxConcurrency <= 0 then |Dispatched(d, st)| else st.maxConcurrency
    ensures var jobs := ss[k].group.jobs;
      |jobs| == |Dispatched(d, st)| && G.CountActive(jobs) <= m &&
      (forall j: nat, i: nat | i < |jobs| && j / m < i / m :: !jobs[i].Queued? ==> j in ss[k].restarted) &&
      (forall j: nat, i: nat | i < |jobs| && j < |jobs| && j / m == i / m ::
        ss[k].group.outcome.None? && jobs[i].Queued? && !jobs[j].Queued? ==>
          R.Enabled(RunnerConfig(file, d, st), ss[k], R.Start(i)))
  {
    var c := RunnerConfig(file, d, st);
    RunnerConfigValid(file, d, st);
    R.RestartsAreBatched(c, ss, k);
    R.BatchesInOrder(c, ss, k);
    R.CompanionsMayStart(c, ss, k);
  }

  /** And with its path: without one, or in a dry run, the file is left alone; otherwise a run that ends
      well has recorded every worker it dispatched, under the node and context it was given. */
  lemma {:induction false} RunRecordsWorkers(file: Option<Content>, d: Data, st: Settings, ss: seq<R.State>, k: nat)
    requires st.Valid() && Dispatched(d, st) != [] && R.Run(RunnerConfig(file, d, st), ss) && k < |ss|
    ensures !st.hasPath || st.dryRun ==> ss[k].file == file
    ensures ss[k].checkpoint.nodeName == st.node && ss[k].checkpoint.context == st.context
    ensures d.Completed() <= ss[k].checkpoint.Completed()
    ensures ss[k].group.outcome == Some(true) && st.hasPath && !st.dryRun ==>
      forall i: nat :: i < |Dispatched(d, st)| ==> KeyOf(Dispatched(d, st)[i]) in ss[k].checkpoint.Completed()
  {
    var c := RunnerConfig(file, d, st);
    RunnerConfigValid(file, d, st);
    R.FileIsAlwaysComplete(c, ss, k);
    assert !c.saves ==> ss[k].order == [] && ss[k].saved == 0;
    assert d.For(st.node, st.context).Completed() == d.Completed();
    R.Recorded(c, ss, k);
  }

  /** And with its flags: events are sent only if asked for, the file is written only if there is a path,
      and a dry run sends and writes nothing. */
  lemma {:induction false} RunObeysFlags(file: Option<Content>, d: Data, st: Settings, ss: seq<R.State>, k: nat)
    requires st.Valid() && Dispatched(d, st) != [] && R.Run(RunnerConfig(file, d, st), ss) && k < |ss|
    ensures T.CreateEvent in ss[k].log ==> st.events && !st.dryRun
    ensures T.WriteTemp in ss[k].log || T.RenameTemp in ss[k].log ==> st.hasPath && !st.dryRun
    ensures st.dryRun ==> ss[k].log == []
  {
    RunnerConfigValid(file, d, st);
    R.RunnerWrites(RunnerConfig(file, d, st), ss, k);
  }

  /** Which checkpoint a run starts from, on the file's own fields. */
  lemma {:induction false} LoadedExactly(file: Option<Content>, st: Settings, d: Data)
    ensures Loaded(file, st) == Some(d) <==>
      if !st.resume || !st.hasPath || file == None then d == Data("", "", map[], map[])
      else
        st.readable && file == Some(Whole(d)) &&
        (d.nodeName == "" || d.nodeName == st.node) &&
        (d.context == "" || st.context == "" || d.context == st.context)
  {}

  /** A nil restart: which node's run made it, under which kube context, of which workload. */
  datatype Record = Record(node: string, context: string, workload: Workload)

  /** The file and the past. `known` says that every run so far knew its kube context. */
  datatype World = World(file: Option<Content>, history: set<Record>, known: bool)

  /** The nil restarts of a run; what a dry run skips over is none. */
  function Records(st: Settings, list: seq<Workload>, restarted: set<nat>): set<Record> {
    set i | i in restarted && i < |list| && !st.dryRun :: Record(st.node, st.context, list[i])
  }

  /** What a run leaves behind when it is cut off in the given state. */
  function Left(before: World, st: Settings, c: R.Config, last: R.State): World {
    World(last.file, before.history + Records(st, c.list, last.restarted), before.known && st.context != "")
  }

  /** One run, observed at any of its states: a crash may leave it there. */
  ghost predicate RunsTo(before: World, st: Settings, after: World) {
    st.Valid() && Loaded(before.file, st).Some? &&
    var c := RunnerConfig(before.file, Loaded(before.file, st).value, st);
    c.Valid() && exists ss: seq<R.State> :: R.Run(c, ss) && after == Left(before, st, c, ss[|ss| - 1])
  }

  /** Whatever the restarts learn, they suit the worker machine. */
  lemma RunnerConfigValid(file: Option<Content>, d: Data, st: Settings)
    requires st.Valid() && Dispatched(d, st) != []
    ensures RunnerConfig(file, d, st).Valid()
  {
    var c := RunnerConfig(file, d, st);
    forall w ensures c.Orderly(w, c.restart(w)) {
      W.OnePatch(w, st.dryRun, c.events, st.answers(w));
    }
  }

  /** A run, or the removal of the file after a successful drain. */
  ghost predicate Next(before: World, after: World) {
    (exists st :: RunsTo(before, st, after)) || after == before.(file := None)
  }

  ghost predicate Chain(ws: seq<World>, initial: Option<Content>) {
    |ws| > 0 && ws[0] == World(initial, {}, true) && forall k :: 0 <= k < |ws| - 1 ==> Next(ws[k], ws[k + 1])
  }

  /** The completed key stands for a nil restart, made for the file's own node, of that very object. */
  ghost predicate Justified(w: World, d: Data, key: string) {
    key in d.workloads &&
    exists rec :: rec in w.history && KeyOf(rec.workload) == key && EntryOf(rec.workload) == d.workloads[key] &&
      rec.node == d.nodeName && rec.node != "" && (w.known ==> rec.context == d.context && rec.context != "")
  }

  /** The completed key was in the file the chain began with, unchanged since. */
  predicate Inherited(initial: Option<Content>, d: Data, key: string) {
    initial.Some? && initial.value.Whole? && var d0 := initial.value.data;
    key in d0.Completed() && (key in d.workloads <==> key in d0.workloads) &&
    (key in d.workloads ==> d.workloads[key] == d0.workloads[key]) &&
    (d0.nodeName == "" || d0.nodeName == d.nodeName)
  }

  ghost predicate Explained(w: World, initial: Option<Content>, d: Data) {
    forall key :: key in d.Completed() ==> Justified(w, d, key) || Inherited(initial, d, key)
  }

  ghost predicate Inv(w: World, initial: Option<Content>) {
    w.file.Some? && w.file.value.Whole? ==> Explained(w, initial, w.file.value.data)
  }

  /** More history, or less knowledge of contexts, explains no less. */
  lemma ExplainedWeaken(w: World, w': World, initial: Option<Content>, d: Data)
    requires Explained(w, initial, d) && w.history <= w'.history && (w'.known ==> w.known)
    ensures Explained(w', initial, d)
  {
    forall key | key in d.Completed() ensures Justified(w', d, key) || Inherited(initial, d, key) {
      if Justified(w, d, key) {
        var rec :| rec in w.history && KeyOf(rec.workload) == key && EntryOf(rec.workload) == d.workloads[key] &&
          rec.node == d.nodeName && rec.node != "" && (w.known ==> rec.context == d.context && rec.context != "");
        assert rec in w'.history;
      }
    }
  }

  /** A loaded checkpoint stays explained when the run puts its own node and context on it. */
  lemma ExplainedRelabel(w: World, initial: Option<Content>, d: Data, st: Settings)
    requires Explained(w, initial, d) && st.Valid() && Accepts(d, st.node, st.context)
    ensures Explained(w.(known := w.known && st.context != ""), initial, d.For(st.node, st.context))
  {
    var d' := d.For(st.node, st.context);
    var w' := w.(known := w.known && st.context != "");
    forall key | key in d'.Completed() ensures Justified(w', d', key) || Inherited(initial, d', key) {
      assert key in d.Completed();
      if Justified(w, d, key) {
        var rec :| rec in w.history && KeyOf(rec.workload) == key && EntryOf(rec.workload) == d.workloads[key] &&
          rec.node == d.nodeName && rec.node != "" && (w.known ==> rec.context == d.context && rec.context != "");
        assert rec in w'.history;
      }
    }
  }

  /** The file left by a run is explained by its own nil restarts and by what it started from. */
  lemma ExplainedReplay(
      w: World, initial: Option<Content>, st: Settings, c: R.Config, order: seq<nat>, restarted: set<nat>)
    requires Explained(w, initial, c.checkpoint)
    requires c.checkpoint.nodeName == st.node != "" && c.checkpoint.context == st.context
    requires w.known ==> st.context != ""
    requires R.Workers(order, |c.list|) && forall a :: 0 <= a < |order| ==> order[a] in restarted
    requires Records(st, c.list, restarted) <= w.history && !st.dryRun
    ensures Explained(w, initial, R.Replay(c.checkpoint, c.list, order))
  {
    var d := R.Replay(c.checkpoint, c.list, order);
    R.ReplayMeaning(c.checkpoint, c.list, order);
    forall key | key in d.Completed() ensures Justified(w, d, key) || Inherited(initial, d, key) {
      if key in R.KeysAt(c.list, order) {
        var a := R.ReplayEntry(c.checkpoint, c.list, order, key);
        assert Record(st.node, st.context, c.list[order[a]]) in Records(st, c.list, restarted);
      } else if Justified(w, c.checkpoint, key) {
        var rec :| rec in w.history && KeyOf(rec.workload) == key &&
          EntryOf(rec.workload) == c.checkpoint.workloads[key] &&
          rec.node == c.checkpoint.nodeName && rec.node != "" &&
          (w.known ==> rec.context == c.checkpoint.context && rec.context != "");
        assert rec in w.history && EntryOf(rec.workload) == d.workloads[key];
      }
    }
  }

  lemma RunKeepsInv(before: World, st: Settings, after: World, initial: Option<Content>)
    requires Inv(before, initial) && RunsTo(before, st, after)
    ensures Inv(after, initial)
  {
    var d := Loaded(before.file, st).value;
    var c := RunnerConfig(before.file, d, st);
    var ss: seq<R.State> :| R.Run(c, ss) && after == Left(before, st, c, ss[|ss| - 1]);
    var last := ss[|ss| - 1];
    R.FileIsAlwaysComplete(c, ss, |ss| - 1);
    if last.saved == 0 {
      if after.file.Some? && after.file.value.Whole? {
        ExplainedWeaken(before, after, initial, after.file.value.data);
      }
    } else {
      var order := last.order[..last.saved];
      assert forall a :: 0 <= a < |order| ==> order[a] == last.order[a];
      LoadedExplained(before, st, initial);
      assert last.order != [] && c.saves;
      SavedExplained(before, st, d, initial, c, order, last.restarted, after);
    }
  }

  /** What a run loads is explained, and made for its node and context. */
  lemma LoadedExplained(w: World, st: Settings, initial: Option<Content>)
    requires Inv(w, initial) && Loaded(w.file, st).Some?
    ensures Explained(w, initial, Loaded(w.file, st).value) && Accepts(Loaded(w.file, st).value, st.node, st.context)
  {}

  /** What a run saves is explained by what it loaded and by its own nil restarts. */
  lemma SavedExplained(before: World, st: Settings, d: Data, initial: Option<Content>,
                       c: R.Config, order: seq<nat>, restarted: set<nat>, after: World)
    requires Explained(before, initial, d) && st.Valid() && Accepts(d, st.node, st.context)
    requires c.checkpoint == d.For(st.node, st.context)
    requires after.history == before.history + Records(st, c.list, restarted)
    requires after.known == (before.known && st.context != "") && !st.dryRun
    requires R.Workers(order, |c.list|) && forall a :: 0 <= a < |order| ==> order[a] in restarted
    ensures Explained(after, initial, R.Replay(c.checkpoint, c.list, order))
  {
    ExplainedRelabel(before, initial, d, st);
    ExplainedWeaken(before.(known := before.known && st.context != ""), after, initial, c.checkpoint);
    ExplainedReplay(after, initial, st, c, order, restarted);
  }

  lemma {:induction false} ChainInv(ws: seq<World>, initial: Option<Content>, k: nat)
    requires Chain(ws, initial) && k < |ws|
    ensures Inv(ws[k], initial)
  {
    if k == 0 {
      if initial.Some? && initial.value.Whole? {
        assert forall key :: key in initial.value.data.Completed() ==> Inherited(initial, initial.value.data, key);
      }
    } else {
      ChainInv(ws, initial, k - 1);
      var before, after := ws[k - 1], ws[k - 1 + 1];
      assert Next(before, after);
      if st :| RunsTo(before, st, after) {
        RunKeepsInv(before, st, after, initial);
      }
    }
  }

  /** The two were found under one key, and neither UIDs nor generations tell them apart. */
  predicate MayBeSame(a: Workload, b: Workload) {
    KeyOf(a) == KeyOf(b) &&
    (a.uid == "" || b.uid == "" || a.uid == b.uid) &&
    (a.generation == 0 || b.generation == 0 || a.generation == b.generation)
  }

  /** An earlier run for the same node restarted the workload and got nil; identity and generation
      still agree wherever both are known; and so does the kube context if all runs knew theirs. */
  ghost predicate RestartedBefore(w: World, st: Settings, x: Workload) {
    exists rec :: rec in w.history && rec.node == st.node && MayBeSame(rec.workload, x) &&
      (w.known && st.context != "" ==> rec.context == st.context)
  }

  /** The entry is the initial file's own, and passes the rule for it: a legacy entry counts only
      when the node has no non-terminal pod of the workload left. */
  predicate TrustedFromStart(initial: Option<Content>, x: Workload, pods: Result<nat, ApiError>) {
    initial.Some? && initial.value.Whole? &&
    var d := initial.value.data;
    KeyOf(x) in d.completed && d.completed[KeyOf(x)] &&
    if KeyOf(x) in d.workloads then
      var e := d.workloads[KeyOf(x)];
      (e.uid == "" || x.uid == "" || e.uid == x.uid) &&
      (e.generation == 0 || x.generation == 0 || e.generation == x.generation)
    else pods == Ok(0)
  }

  /** Soundness of skipping, over every chain of crashed, failed, resumed and fresh runs: resume drops
      a workload only on the strength of an earlier nil restart for this node, or of an entry the
      chain began with. A chain that began without a file leaves only the first reason. */
  lemma {:induction false} SkipsAreSound(ws: seq<World>, initial: Option<Content>, k: nat, st: Settings, i: nat)
    requires k < |ws| && st.Valid() && st.resume && st.hasPath && Loaded(ws[k].file, st).Some? && i < |st.sorted|
    requires CanSkip(Loaded(ws[k].file, st).value, st.sorted[i], st.pods[i]) == Ok(true)
    requires Chain(ws, initial)
    ensures RestartedBefore(ws[k], st, st.sorted[i]) || TrustedFromStart(initial, st.sorted[i], st.pods[i])
    ensures initial.None? ==> RestartedBefore(ws[k], st, st.sorted[i])
  {
    ChainInv(ws, initial, k);
    var d, x := Loaded(ws[k].file, st).value, st.sorted[i];
    var key := KeyOf(x);
    CanSkipExactly(d, x, st.pods[i]);
    assert ws[k].file.Some? && ws[k].file.value == Whole(d);
    if Justified(ws[k], d, key) {
      var rec :| rec in ws[k].history && KeyOf(rec.workload) == key && EntryOf(rec.workload) == d.workloads[key] &&
        rec.node == d.nodeName && rec.node != "" && (ws[k].known ==> rec.context == d.context && rec.context != "");
      assert MayBeSame(rec.workload, x);
    }
  }

  /** What the restart's own patch does to resume. A workload recorded by a run, and found again by a later
      one under a generation of its own, is dispatched again exactly when both generations are known and
      differ: a completed workload whose patch moved its generation on is restarted once more. */
  lemma {:induction false} BumpedWorkloadIsDispatchedAgain(
      c: R.Config, ss: seq<R.State>, k: nat, i: nat, st: Settings, g: int)
    requires c.Valid() && R.Run(c, ss) && k < |ss| && DistinctKeys(c.list)
    requires 0 < ss[k].saved <= |ss[k].order| && i in ss[k].order[..ss[k].saved]
    requires st.Valid() && st.resume && st.hasPath && Loaded(ss[k].file, st).Some?
    requires i < |c.list| && c.list[i].(generation := g) in st.sorted
    ensures c.list[i].(generation := g) in Dispatched(Loaded(ss[k].file, st).value, st) <==>
      c.list[i].generation != 0 && g != 0 && g != c.list[i].generation
  {
    var order, w := ss[k].order[..ss[k].saved], c.list[i];
    var x := w.(generation := g);
    R.FileIsAlwaysComplete(c, ss, k);
    assert R.Workers(order, |c.list|) by {
      assert forall a :: 0 <= a < |order| ==> order[a] == ss[k].order[a];
    }
    var d := Loaded(ss[k].file, st).value;
    R.ReplayMeaning(c.checkpoint, c.list, order);
    var p :| 0 <= p < |order| && order[p] == i;
    assert KeyOf(c.list[order[p]]) in R.KeysAt(c.list, order);
    var a := R.ReplayEntry(c.checkpoint, c.list, order, KeyOf(w));
    assert order[a] == i && d.workloads[KeyOf(w)] == EntryOf(w) && KeyOf(x) == KeyOf(w);
    forall j | 0 <= j < |st.sorted| && st.sorted[j] == x
      ensures CanSkip(d, x, st.pods[j]) == Ok(true) <==> w.generation == 0 || g == 0 || g == w.generation
    {
      CanSkipExactly(d, x, st.pods[j]);
    }
    KeptMeaning(d, st.sorted, st.pods);
  }

  /** A run started under `middle` rewrites the context of a file begun under `first`. An entry made
      under `first` then counts for a run under `last` exactly when the middle run did not know its
      context or nothing changed hands: an unknown context opens the file to every later one. */
  lemma {:induction false} UnknownContextLaundersEntries(
      node: string, first: string, middle: string, last: string, w: Workload, v: Workload, pods: Result<nat, ApiError>)
    requires first != "" && last != "" && KeyOf(v) != KeyOf(w)
    ensures var d := EMPTY.For(node, first).Mark(w);
      var d' := d.For(node, middle).Mark(v);
      CanSkip(d', w, pods) == Ok(true) &&
      (Accepts(d, node, middle) && Accepts(d', node, last) <==> middle == "" || (first == middle && middle == last))
  {
    var d := EMPTY.For(node, first).Mark(w);
    var d' := d.For(node, middle).Mark(v);
    CanSkipExactly(d', w, pods);
  }
}
