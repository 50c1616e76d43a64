/** The workload runner: batches of concurrent restarts whose completions are saved, one at a time,
    to the checkpoint file. The machine interleaves all workers of a batch; a crash is simply a run
    that goes no further, so whatever holds in every state holds after a crash. */
module Runner {
  import opened Kube
  import opened Workloads
  import opened Checkpoints
  import opened Trace
  import G = Groups

  /** One call of runWorkloads, past sorting and filtering. `saves` means a checkpoint path is set, and
      `restart` is what the rolling restart of each workload comes to. */
  datatype Config = Config(
    list: seq<Workload>, limit: nat, dryRun: bool, saves: bool, events: bool,
    checkpoint: Data, file: Option<Content>, restart: Workload -> Restart)
  {
    ghost predicate Valid() {
      limit > 0 && (dryRun ==> !saves && !events) && forall w :: Orderly(w, restart(w))
    }

    /** A restart patches its own workload only, and once; a dry run neither writes nor fails. */
    predicate Orderly(w: Workload, r: Restart) {
      |r.writes| <= 3 && (dryRun ==> r.ok && r.writes == []) &&
      (forall x :: x in r.writes ==> x == Patch(KeyOf(w)) || (x == CreateEvent && events)) &&
      forall m, n :: 0 <= m < n < |r.writes| && r.writes[m].Patch? ==> r.writes[m] != r.writes[n]
    }

    predicate ReturnsNil(i: nat)
      requires i < |list|
    {
      restart(list[i]).ok
    }

    function Writes(i: nat): seq<Write>
      requires i < |list|
    {
      restart(list[i]).writes
    }
  }

  /** What an active worker is doing. The last five are under the checkpoint mutex. */
  datatype Task =
    | Restarting
    | AwaitSave
    | Marking
    | Opening     // about to create the directory and the temporary file
    | Writing     // the temporary file is open and incomplete
    | Renaming    // the temporary file is complete
    | Unlocking
  {
    predicate Saving() { !Restarting? && !AwaitSave? }
  }

  datatype State = State(
    group: G.Group,
    tasks: seq<Task>,
    mutex: Option<nat>,
    checkpoint: Data,          // in memory
    file: Option<Content>,
    tmp: Option<Content>,
    restarted: set<nat>,       // workers whose rolling restart returned nil
    sent: seq<nat>,            // how many of its restart's writes each worker has sent
    order: seq<nat>,           // workers in the order they were marked done
    saved: nat,                // how many of them the file reflects; 0 while it is untouched
    log: seq<Write>)
  {
    predicate Active(i: nat) {
      i < |tasks| && i < |group.jobs| && group.jobs[i].Active?
    }

    /** The writes that worker `i` has sent are the first `sent[i]` of its restart. */
    predicate Sending(c: Config, i: nat) {
      i < |c.list| && i < |sent| && sent[i] < |c.Writes(i)|
    }

    predicate Doing(i: nat, t: Task) {
      Active(i) && tasks[i] == t
    }

    function With(i: nat, t: Task): State
      requires i < |tasks|
    {
      this.(tasks := tasks[i := t])
    }

    function Logging(w: Write): State {
      this.(log := log + [w])
    }
  }

  function Init(c: Config): State {
    State(G.Init(|c.list|), seq(|c.list|, _ => Restarting), None, c.checkpoint, c.file, None, {},
          seq(|c.list|, _ => 0), [], 0, [])
  }

  datatype Action =
    | Start(worker: nat)
    | Send(worker: nat)                     // the next write of the worker's restart
    | RestartReturns(worker: nat)
    | Lock(worker: nat)
    | MarkDone(worker: nat)
    | Open(worker: nat, ok: bool)
    | WriteAll(worker: nat, ok: bool)
    | Rename(worker: nat, ok: bool)
    | Unlock(worker: nat)
    | Join

  predicate Enabled(c: Config, s: State, a: Action) {
    match a
    case Start(i) => G.CanStart(s.group, c.limit, i) && i < |s.tasks|
    case Send(i) => s.Doing(i, Restarting) && s.Sending(c, i)
    case RestartReturns(i) => s.Doing(i, Restarting) && i < |c.list| && !s.Sending(c, i)
    case Lock(i) => s.Doing(i, AwaitSave) && s.mutex.None?
    case MarkDone(i) => s.Doing(i, Marking) && i < |c.list|
    case Open(i, _) => s.Doing(i, Opening)
    case WriteAll(i, _) => s.Doing(i, Writing)
    case Rename(i, _) => s.Doing(i, Renaming)
    case Unlock(i) => s.Doing(i, Unlocking)
    case Join => G.CanJoin(s.group, c.limit)
  }

  function Step(c: Config, s: State, a: Action): State
    requires Enabled(c, s, a)
  {
    match a
    case Start(i) => s.(group := G.Start(s.group, i)).With(i, Restarting)
    case Send(i) => s.(sent := s.sent[i := s.sent[i] + 1]).Logging(c.Writes(i)[s.sent[i]])
    case RestartReturns(i) =>
      if !c.ReturnsNil(i) then s.(group := G.Finish(s.group, i, false))
      else if c.saves then s.(restarted := s.restarted + {i}).With(i, AwaitSave)
      else s.(restarted := s.restarted + {i}, group := G.Finish(s.group, i, true))
    case Lock(i) => s.(mutex := Some(i)).With(i, Marking)
    case MarkDone(i) => s.(checkpoint := s.checkpoint.Mark(c.list[i]), order := s.order + [i]).With(i, Opening)
    case Open(i, ok) =>
      if ok then s.(tmp := Some(Garbage)).With(i, Writing).Logging(WriteTemp) else s.With(i, Unlocking)
    case WriteAll(i, ok) =>
      if ok then s.(tmp := Some(Whole(s.checkpoint))).With(i, Renaming) else s.With(i, Unlocking)
    case Rename(i, ok) =>
      (if ok then s.(file := s.tmp, tmp := None, saved := |s.order|) else s).With(i, Unlocking).Logging(RenameTemp)
    case Unlock(i) => s.(mutex := None, group := G.Finish(s.group, i, true))
    case Join => s.(group := G.Join(s.group, c.limit))
  }

  ghost predicate Next(c: Config, s: State, s': State) {
    exists a :: Enabled(c, s, a) && s' == Step(c, s, a)
  }

  ghost predicate Run(c: Config, ss: seq<State>) {
    |ss| > 0 && ss[0] == Init(c) && forall k :: 0 <= k < |ss| - 1 ==> Next(c, ss[k], ss[k + 1])
  }

  // ----- what the file means -----

  /** The checkpoint after marking the listed workers, in order. */
  function Replay(d: Data, list: seq<Workload>, order: seq<nat>): Data {
    if order == [] then d
    else
      var n := |order| - 1;
      var before := Replay(d, list, order[..n]);
      if order[n] < |list| then before.Mark(list[order[n]]) else before
  }

  predicate Workers(order: seq<nat>, count: nat) {
    forall a :: 0 <= a < |order| ==> order[a] < count
  }

  function KeysAt(list: seq<Workload>, order: seq<nat>): set<string>
    requires Workers(order, |list|)
  {
    set a | 0 <= a < |order| :: KeyOf(list[order[a]])
  }

  lemma MarkCompletes(d: Data, w: Workload)
    ensures d.Mark(w).Completed() == d.Completed() + {KeyOf(w)}
  {}

  lemma OneMoreKey(list: seq<Workload>, order: seq<nat>)
    requires order != [] && Workers(order, |list|)
    ensures Workers(order[..|order| - 1], |list|)
    ensures KeysAt(list, order) == KeysAt(list, order[..|order| - 1]) + {KeyOf(list[order[|order| - 1]])}
  {
    var n := |order| - 1;
    assert forall a :: 0 <= a < n ==> order[..n][a] == order[a];
  }

  /** A replay adds exactly the keys it marks, and forgets nothing. */
  lemma {:induction false} ReplayMeaning(d: Data, list: seq<Workload>, order: seq<nat>)
    requires Workers(order, |list|)
    ensures Replay(d, list, order).Completed() == d.Completed() + KeysAt(list, order)
    ensures Replay(d, list, order).workloads.Keys == d.workloads.Keys + KeysAt(list, order)
    ensures Replay(d, list, order).nodeName == d.nodeName && Replay(d, list, order).context == d.context
    ensures forall k :: k in d.workloads && k !in KeysAt(list, order) ==>
      k in Replay(d, list, order).workloads && Replay(d, list, order).workloads[k] == d.workloads[k]
  {
    if order != [] {
      var n := |order| - 1;
      ReplayMeaning(d, list, order[..n]);
      OneMoreKey(list, order);
      MarkCompletes(Replay(d, list, order[..n]), list[order[n]]);
    }
  }

  /** The entry of a marked key is the identity of a worker marked under that key. */
  lemma {:induction false} ReplayEntry(d: Data, list: seq<Workload>, order: seq<nat>, k: string) returns (a: nat)
    requires Workers(order, |list|) && k in KeysAt(list, order)
    ensures a < |order| && KeyOf(list[order[a]]) == k
    ensures k in Replay(d, list, order).workloads && Replay(d, list, order).workloads[k] == EntryOf(list[order[a]])
    ensures var w := list[order[a]];
      Replay(d, list, order).workloads[k] == Entry(w.kind, w.namespace, w.name, w.uid, w.generation)
  {
    var n := |order| - 1;
    if KeyOf(list[order[n]]) == k {
      a := n;
    } else {
      var b :| 0 <= b < |order| && KeyOf(list[order[b]]) == k;
      assert order[..n][b] == order[b];
      a := ReplayEntry(d, list, order[..n], k);
    }
  }

  /** A longer replay completes more. */
  lemma {:induction false} ReplayMonotone(d: Data, list: seq<Workload>, order: seq<nat>, n: nat)
    requires Workers(order, |list|) && n <= |order|
    ensures Replay(d, list, order[..n]).Completed() <= Replay(d, list, order).Completed()
  {
    ReplayMeaning(d, list, order);
    ReplayMeaning(d, list, order[..n]);
    assert forall a :: 0 <= a < n ==> order[..n][a] == order[a];
  }

  // ----- invariants -----

  ghost predicate ShapeInv(c: Config, s: State) {
    c.Valid() && |s.tasks| == |s.group.jobs| == |s.sent| == |c.list| && G.Inv(s.group, c.limit)
  }

  /** The mutex: its holder is the one worker inside a save. */
  ghost predicate MutexInv(s: State) {
    (s.mutex.Some? ==> s.Active(s.mutex.value) && s.tasks[s.mutex.value].Saving()) &&
    forall i :: 0 <= i < |s.tasks| && s.Active(i) && s.tasks[i].Saving() ==> s.mutex == Some(i)
  }

  /** A worker about to rename has the whole checkpoint in the temporary file. */
  ghost predicate TempKept(s: State) {
    forall i: nat :: s.Doing(i, Renaming) ==> s.tmp == Some(Whole(s.checkpoint))
  }

  /** Every file state is explained by the order of completions. */
  ghost predicate FileInv(c: Config, s: State) {
    s.saved <= |s.order| && (s.order != [] ==> c.saves) &&
    Workers(s.order, |c.list|) && (forall a :: 0 <= a < |s.order| ==> s.order[a] in s.restarted) &&
    s.checkpoint == Replay(c.checkpoint, c.list, s.order) &&
    s.file == (if s.saved == 0 then c.file else Some(Whole(Replay(c.checkpoint, c.list, s.order[..s.saved])))) &&
    TempKept(s)
  }

  /** A worker that finished well is recorded in memory, and was marked exactly once. */
  ghost predicate OrderInv(c: Config, s: State) {
    (forall a, b :: 0 <= a < b < |s.order| ==> s.order[a] != s.order[b]) &&
    forall i :: 0 <= i < |s.tasks| && i < |s.group.jobs| ==> WorkerInv(c, s, i)
  }

  predicate Marked(s: State, i: nat) {
    s.Active(i) && s.tasks[i].Saving() && !s.tasks[i].Marking?
  }

  predicate WorkerInv(c: Config, s: State, i: nat)
    requires i < |s.tasks| && i < |s.group.jobs|
  {
    (i in s.restarted ==> i < |c.list| && c.ReturnsNil(i)) &&
    (s.group.jobs[i].Broken? ==> i < |c.list| && !c.ReturnsNil(i)) &&
    (i in s.order ==> s.group.jobs[i].Passed? || Marked(s, i)) &&
    (s.group.jobs[i].Passed? ==> i in s.restarted && (c.saves ==> i in s.order)) &&
    (i in s.restarted <==> s.group.jobs[i].Passed? || (s.Active(i) && !s.tasks[i].Restarting?)) &&
    (s.Active(i) && !s.tasks[i].Restarting? ==> c.saves) &&
    (Marked(s, i) ==> i in s.order)
  }

  predicate Allowed(c: Config, w: Write) {
    match w
    case Patch(k) => !c.dryRun && k in Keys(c.list)
    case CreateEvent => c.events
    case WriteTemp => c.saves
    case RenameTemp => c.saves
    case _ => false
  }

  /** Worker `i` has sent its `m`th write, and that is `w`. */
  predicate Sent(c: Config, s: State, i: nat, m: nat, w: Write) {
    i < |c.list| && i < |s.sent| && m < s.sent[i] && m < |c.Writes(i)| && c.Writes(i)[m] == w
  }

  /** Patches in the trace come from the restarts, whose sent writes are all in the trace; a restart that
      is over has sent all of its writes. */
  ghost predicate LogInv(c: Config, s: State) {
    (forall w :: w in s.log ==> Allowed(c, w)) &&
    (forall i, m, w :: Sent(c, s, i, m, w) ==> w in s.log) &&
    (forall w :: w in s.log && w.Patch? ==> exists i, m :: Sent(c, s, i, m, w))
  }

  predicate SentInv(c: Config, s: State, i: nat)
    requires i < |c.list| && i < |s.sent| && i < |s.tasks| && i < |s.group.jobs|
  {
    s.sent[i] <= |c.Writes(i)| &&
    (s.group.jobs[i].Queued? ==> s.sent[i] == 0) &&
    (s.group.jobs[i].Passed? || s.group.jobs[i].Broken? || (s.Active(i) && !s.tasks[i].Restarting?) ==>
      s.sent[i] == |c.Writes(i)|)
  }

  ghost predicate AllSentInv(c: Config, s: State)
    requires |s.tasks| == |s.group.jobs| == |s.sent| == |c.list|
  {
    forall i: nat :: i < |c.list| ==> SentInv(c, s, i)
  }

  /** No workload is patched twice. */
  ghost predicate PatchesOnce(s: State) {
    forall a, b :: 0 <= a < b < |s.log| && s.log[a].Patch? ==> s.log[a] != s.log[b]
  }

  ghost predicate Inv(c: Config, s: State) {
    c.Valid() && ShapeInv(c, s) && MutexInv(s) && FileInv(c, s) && OrderInv(c, s) && LogInv(c, s) &&
    AllSentInv(c, s) && (DistinctKeys(c.list) ==> PatchesOnce(s))
  }

  lemma InitInv(c: Config)
    requires c.Valid()
    ensures Inv(c, Init(c))
  {
    G.InitInv(|c.list|, c.limit);
  }

  /** Every action is a step of the batch group, or leaves the group alone. */
  lemma StepsRefineGroup(c: Config, s: State, a: Action)
    requires Enabled(c, s, a)
    ensures Step(c, s, a).group == s.group || G.Next(s.group, Step(c, s, a).group, c.limit)
  {}

  lemma ShapeStep(c: Config, s: State, a: Action)
    requires c.Valid() && ShapeInv(c, s) && Enabled(c, s, a)
    ensures ShapeInv(c, Step(c, s, a))
  {
    StepsRefineGroup(c, s, a);
    if Step(c, s, a).group != s.group {
      G.StepInv(s.group, Step(c, s, a).group, c.limit);
    }
  }

  // ----- one step -----

  /** Nothing about worker `i` changes. */
  predicate Elsewhere(s: State, s': State, i: nat) {
    i < |s.tasks| == |s'.tasks| && i < |s.group.jobs| == |s'.group.jobs| && i < |s.sent| == |s'.sent| &&
    s'.tasks[i] == s.tasks[i] && s'.group.jobs[i] == s.group.jobs[i] && s'.sent[i] == s.sent[i] &&
    (i in s'.order <==> i in s.order) && (i in s'.restarted <==> i in s.restarted)
  }

  /** A step concerns its own worker only, and the join none. */
  lemma StepElsewhere(c: Config, s: State, a: Action, i: nat)
    requires ShapeInv(c, s) && Enabled(c, s, a) && i < |c.list| && (!a.Join? ==> i != a.worker)
    ensures Elsewhere(s, Step(c, s, a), i)
  {}

  lemma WorkerOther(c: Config, s: State, s': State, i: nat)
    requires Elsewhere(s, s', i) && WorkerInv(c, s, i)
    ensures WorkerInv(c, s', i)
  {}

  lemma WorkerOwn(c: Config, s: State, a: Action)
    requires ShapeInv(c, s) && Enabled(c, s, a) && !a.Join? && WorkerInv(c, s, a.worker)
    ensures |Step(c, s, a).tasks| == |Step(c, s, a).group.jobs| == |s.tasks|
    ensures WorkerInv(c, Step(c, s, a), a.worker)
  {}

  lemma OrderStep(c: Config, s: State, a: Action)
    requires ShapeInv(c, s) && OrderInv(c, s) && Enabled(c, s, a) && ShapeInv(c, Step(c, s, a))
    ensures OrderInv(c, Step(c, s, a))
  {
    var s' := Step(c, s, a);
    forall i: nat | i < |s'.tasks| ensures WorkerInv(c, s', i) {
      assert WorkerInv(c, s, i);
      if !a.Join? && i == a.worker {
        WorkerOwn(c, s, a);
      } else {
        StepElsewhere(c, s, a, i);
        WorkerOther(c, s, s', i);
      }
    }
    OrderDistinct(c, s, a);
  }

  lemma OrderDistinct(c: Config, s: State, a: Action)
    requires ShapeInv(c, s) && OrderInv(c, s) && Enabled(c, s, a)
    ensures forall i, j :: 0 <= i < j < |Step(c, s, a).order| ==> Step(c, s, a).order[i] != Step(c, s, a).order[j]
  {
    if a.MarkDone? {
      assert WorkerInv(c, s, a.worker);
      assert a.worker !in s.order;
    }
  }

  /** Who holds the mutex after a step, and who is inside a save. */
  lemma MutexMoves(c: Config, s: State, a: Action)
    requires ShapeInv(c, s) && MutexInv(s) && Enabled(c, s, a) && !a.Join?
    ensures var s' := Step(c, s, a);
      a.worker < |s'.tasks| == |s.tasks| == |s'.group.jobs| &&
      if s'.Active(a.worker) && s'.tasks[a.worker].Saving() then s'.mutex == Some(a.worker)
      else s'.mutex == if s.Active(a.worker) && s.tasks[a.worker].Saving() then None else s.mutex
  {}

  lemma MutexStep(c: Config, s: State, a: Action)
    requires ShapeInv(c, s) && MutexInv(s) && Enabled(c, s, a) && ShapeInv(c, Step(c, s, a))
    ensures MutexInv(Step(c, s, a))
  {
    var s' := Step(c, s, a);
    forall i: nat | i < |s.tasks| && (!a.Join? ==> i != a.worker) ensures Elsewhere(s, s', i) {
      StepElsewhere(c, s, a, i);
    }
    if !a.Join? {
      MutexMoves(c, s, a);
      MutexKept(s, s', a.worker);
    }
  }

  lemma MutexKept(s: State, s': State, w: nat)
    requires MutexInv(s) && w < |s.tasks| == |s'.tasks| == |s.group.jobs| == |s'.group.jobs|
    requires forall i: nat :: i < |s.tasks| && i != w ==> Elsewhere(s, s', i)
    requires s'.Active(w) && s'.tasks[w].Saving() ==> s'.mutex == Some(w) && (s.mutex.None? || s.mutex == Some(w))
    requires !(s'.Active(w) && s'.tasks[w].Saving()) ==>
      s'.mutex == if s.Active(w) && s.tasks[w].Saving() then None else s.mutex
    ensures MutexInv(s')
  {
    forall i | 0 <= i < |s'.tasks| && s'.Active(i) && s'.tasks[i].Saving() ensures s'.mutex == Some(i) {
      if i != w {
        assert Elsewhere(s, s', i) && s.Active(i) && s.tasks[i].Saving();
      }
    }
    if s'.mutex.Some? && s'.mutex.value != w {
      assert s.Active(s'.mutex.value) && Elsewhere(s, s', s'.mutex.value);
    }
  }

  lemma FileStep(c: Config, s: State, a: Action)
    requires ShapeInv(c, s) && MutexInv(s) && FileInv(c, s) && OrderInv(c, s) && Enabled(c, s, a)
    ensures FileInv(c, Step(c, s, a))
  {
    TempStep(c, s, a);
    if a.MarkDone? {
      assert WorkerInv(c, s, a.worker);
      FileMarked(c, s, Step(c, s, a), a.worker);
    } else if a.Rename? && a.ok {
      assert WorkerInv(c, s, a.worker);
      FileRenamed(c, s, Step(c, s, a), a.worker);
    } else {
      FileUntouched(c, s, a);
      FileKept(c, s, Step(c, s, a));
    }
  }

  lemma FileKept(c: Config, s: State, s': State)
    requires FileInv(c, s) && TempKept(s') && s.restarted <= s'.restarted
    requires s'.order == s.order && s'.checkpoint == s.checkpoint && s'.file == s.file && s'.saved == s.saved
    ensures FileInv(c, s')
  {}

  lemma FileMarked(c: Config, s: State, s': State, i: nat)
    requires FileInv(c, s) && TempKept(s') && i < |c.list| && i in s.restarted && c.saves
    requires s'.order == s.order + [i] && s'.checkpoint == s.checkpoint.Mark(c.list[i])
    requires s'.file == s.file && s'.saved == s.saved && s'.restarted == s.restarted
    ensures FileInv(c, s')
  {
    assert s'.order[..|s.order|] == s.order && s'.order[..s.saved] == s.order[..s.saved];
  }

  lemma FileRenamed(c: Config, s: State, s': State, i: nat)
    requires FileInv(c, s) && TempKept(s') && s.Doing(i, Renaming) && i in s.order
    requires s'.order == s.order && s'.checkpoint == s.checkpoint && s'.restarted == s.restarted
    requires s'.file == s.tmp && s'.saved == |s.order|
    ensures FileInv(c, s')
  {
    assert s.order[..|s.order|] == s.order;
  }

  lemma FileUntouched(c: Config, s: State, a: Action)
    requires Enabled(c, s, a) && !a.MarkDone? && !(a.Rename? && a.ok)
    ensures var s' := Step(c, s, a);
      s'.order == s.order && s'.checkpoint == s.checkpoint && s'.file == s.file && s'.saved == s.saved &&
      s.restarted <= s'.restarted
  {}

  lemma TempStep(c: Config, s: State, a: Action)
    requires ShapeInv(c, s) && MutexInv(s) && FileInv(c, s) && Enabled(c, s, a)
    ensures TempKept(Step(c, s, a))
  {
    var s' := Step(c, s, a);
    forall i: nat | s'.Doing(i, Renaming) ensures s'.tmp == Some(Whole(s'.checkpoint)) {
      if a.Join? || i != a.worker {
        StepElsewhere(c, s, a, i);
        assert s.Doing(i, Renaming) && s.mutex == Some(i);
        OutsideSave(c, s, a, i);
      }
    }
  }

  /** While one worker holds the mutex, no other touches the checkpoint or the temporary file. */
  lemma OutsideSave(c: Config, s: State, a: Action, i: nat)
    requires ShapeInv(c, s) && MutexInv(s) && Enabled(c, s, a) && s.mutex == Some(i) && (!a.Join? ==> i != a.worker)
    ensures Step(c, s, a).tmp == s.tmp && Step(c, s, a).checkpoint == s.checkpoint
  {}

  lemma SentStep(c: Config, s: State, a: Action)
    requires ShapeInv(c, s) && AllSentInv(c, s) && Enabled(c, s, a) && ShapeInv(c, Step(c, s, a))
    ensures AllSentInv(c, Step(c, s, a))
  {
    forall i: nat | i < |c.list| ensures SentInv(c, Step(c, s, a), i) {
      assert SentInv(c, s, i);
      if !a.Join? && i == a.worker {
        SentOwn(c, s, a);
      } else {
        StepElsewhere(c, s, a, i);
      }
    }
  }

  lemma SentOwn(c: Config, s: State, a: Action)
    requires ShapeInv(c, s) && Enabled(c, s, a) && !a.Join? && a.worker < |c.list| && SentInv(c, s, a.worker)
    requires ShapeInv(c, Step(c, s, a))
    ensures SentInv(c, Step(c, s, a), a.worker)
  {}

  lemma LogStep(c: Config, s: State, a: Action)
    requires ShapeInv(c, s) && OrderInv(c, s) && LogInv(c, s) && Enabled(c, s, a)
    ensures LogInv(c, Step(c, s, a))
  {
    if a.Send? {
      OneMoreSent(c, s, Step(c, s, a), a.worker, c.Writes(a.worker)[s.sent[a.worker]]);
    } else {
      var s' := Step(c, s, a);
      QuietLog(c, s, a);
      assert forall i, m, w :: Sent(c, s', i, m, w) <==> Sent(c, s, i, m, w);
      assert forall w :: w in s.log ==> w in s'.log;
      assert forall w :: w in s'.log && w.Patch? ==> w in s.log;
    }
  }

  /** Apart from what restarts send, the trace gets the two writes of a save. */
  lemma QuietLog(c: Config, s: State, a: Action)
    requires ShapeInv(c, s) && OrderInv(c, s) && Enabled(c, s, a) && !a.Send?
    ensures var s' := Step(c, s, a);
      s'.sent == s.sent &&
      (s'.log == s.log || (c.saves && (s'.log == s.log + [WriteTemp] || s'.log == s.log + [RenameTemp])))
  {
    if a.Open? || a.Rename? {
      assert WorkerInv(c, s, a.worker);
    }
  }

  /** The trace grows by the next write of worker `i`. */
  lemma OneMoreSent(c: Config, s: State, s': State, i: nat, x: Write)
    requires c.Valid() && LogInv(c, s) && |s.sent| == |c.list| && s.Sending(c, i) && x == c.Writes(i)[s.sent[i]]
    requires s'.sent == s.sent[i := s.sent[i] + 1] && s'.log == s.log + [x]
    ensures LogInv(c, s')
  {
    assert c.Orderly(c.list[i], c.restart(c.list[i])) && x in c.Writes(i) && KeyOf(c.list[i]) in Keys(c.list);
    forall w | w in s'.log ensures Allowed(c, w) {}
    forall j, m, w | Sent(c, s', j, m, w) ensures w in s'.log {
      assert Sent(c, s, j, m, w) || w == x;
    }
    assert Sent(c, s', i, s.sent[i], x);
    forall w | w in s'.log && w.Patch? ensures exists j, m :: Sent(c, s', j, m, w) {
      if w in s.log {
        var j, m :| Sent(c, s, j, m, w);
        assert Sent(c, s', j, m, w);
      }
    }
  }

  lemma PatchesStep(c: Config, s: State, a: Action)
    requires DistinctKeys(c.list) && ShapeInv(c, s) && LogInv(c, s) && PatchesOnce(s) && Enabled(c, s, a)
    ensures PatchesOnce(Step(c, s, a))
  {
    if a.Send? {
      FreshPatch(c, s, a.worker);
    } else {
      assert Step(c, s, a).log == s.log || Step(c, s, a).log == s.log + [Step(c, s, a).log[|s.log|]];
    }
  }

  /** A patch about to be sent is not in the trace: it would be the same worker's, who sends one only. */
  lemma FreshPatch(c: Config, s: State, i: nat)
    requires DistinctKeys(c.list) && c.Valid() && LogInv(c, s) && s.Sending(c, i)
    ensures var x := c.Writes(i)[s.sent[i]]; x.Patch? ==> x !in s.log
  {
    var x := c.Writes(i)[s.sent[i]];
    assert c.Orderly(c.list[i], c.restart(c.list[i])) && x in c.Writes(i);
    if x.Patch? {
      forall j, m ensures !Sent(c, s, j, m, x) {
        SentOnce(c, s, i, j, m, x);
      }
    }
  }

  lemma SentOnce(c: Config, s: State, i: nat, j: nat, m: nat, x: Write)
    requires DistinctKeys(c.list) && c.Valid() && s.Sending(c, i)
    requires x == c.Writes(i)[s.sent[i]] && x == Patch(KeyOf(c.list[i]))
    ensures !Sent(c, s, j, m, x)
  {
    assert c.Orderly(c.list[i], c.restart(c.list[i]));
    if j < |c.list| && j != i {
      assert c.Orderly(c.list[j], c.restart(c.list[j])) && KeyOf(c.list[j]) != KeyOf(c.list[i]);
      assert m < |c.Writes(j)| ==> c.Writes(j)[m] in c.Writes(j);
    }
  }

  lemma StepInv(c: Config, s: State, a: Action)
    requires Inv(c, s) && Enabled(c, s, a)
    ensures Inv(c, Step(c, s, a))
  {
    ShapeStep(c, s, a);
    MutexStep(c, s, a);
    FileStep(c, s, a);
    OrderStep(c, s, a);
    LogStep(c, s, a);
    SentStep(c, s, a);
    if DistinctKeys(c.list) {
      PatchesStep(c, s, a);
    }
  }

  lemma {:induction false} RunInv(c: Config, ss: seq<State>, k: nat)
    requires c.Valid() && Run(c, ss) && k < |ss|
    ensures forall m: nat :: m <= k ==> Inv(c, ss[m])
  {
    if k == 0 {
      InitInv(c);
    } else {
      RunInv(c, ss, k - 1);
      assert Next(c, ss[k - 1], ss[k - 1 + 1]);
      var a :| Enabled(c, ss[k - 1], a) && ss[k] == Step(c, ss[k - 1], a);
      StepInv(c, ss[k - 1], a);
    }
  }

  // ----- the promises -----

  /** At every moment of every interleaving, and so after a crash at any moment, the checkpoint file
      is untouched or is a complete document: the initial checkpoint plus workers whose restart had
      returned nil, each counted once. Sibling failures and failed saves never spoil it. */
  lemma {:induction false} FileIsAlwaysComplete(c: Config, ss: seq<State>, k: nat)
    requires c.Valid() && Run(c, ss) && k < |ss|
    ensures ss[k].saved == 0 ==> ss[k].file == c.file
    ensures ss[k].saved <= |ss[k].order| && (ss[k].order != [] ==> c.saves)
    ensures ss[k].saved > 0 ==> ss[k].file == Some(Whole(Replay(c.checkpoint, c.list, ss[k].order[..ss[k].saved])))
    ensures Workers(ss[k].order, |c.list|)
    ensures forall a :: 0 <= a < |ss[k].order| ==> ss[k].order[a] in ss[k].restarted
    ensures forall a, b :: 0 <= a < b < |ss[k].order| ==> ss[k].order[a] != ss[k].order[b]
  {
    RunInv(c, ss, k);
  }

  /** What a reader finds completed beyond the initial checkpoint had its restart return nil, and
      carries the identity that worker had when it was discovered. */
  lemma {:induction false} CompletedKeysWereRestarted(c: Config, ss: seq<State>, k: nat, d: Data, key: string)
    returns (i: nat)
    requires c.Valid() && Run(c, ss) && k < |ss| && ss[k].saved > 0 && ss[k].file == Some(Whole(d))
    requires key in d.Completed() && (key !in c.checkpoint.Completed() || key !in d.workloads ||
      key !in c.checkpoint.workloads || d.workloads[key] != c.checkpoint.workloads[key])
    requires key in c.checkpoint.Completed() ==> key in d.workloads
    ensures i < |c.list| && i in ss[k].restarted && KeyOf(c.list[i]) == key
    ensures var w := c.list[i];
      key in d.workloads && d.workloads[key] == Entry(w.kind, w.namespace, w.name, w.uid, w.generation)
  {
    RunInv(c, ss, k);
    var order := ss[k].order[..ss[k].saved];
    ReplayMeaning(c.checkpoint, c.list, order);
    var a := ReplayEntry(c.checkpoint, c.list, order, key);
    assert order[a] == ss[k].order[a];
    i := order[a];
  }

  predicate Grows(before: Option<Content>, after: Option<Content>) {
    before.Some? && before.value.Whole? && after.Some? && after.value.Whole? &&
    before.value.data.Completed() <= after.value.data.Completed()
  }

  lemma HistoryStep(c: Config, s: State, a: Action)
    requires s.saved <= |s.order| && Enabled(c, s, a)
    ensures var s' := Step(c, s, a); s.saved <= s'.saved && s.order <= s'.order && s.restarted <= s'.restarted
  {}

  lemma {:induction false} HistoryGrows(c: Config, ss: seq<State>, m: nat, k: nat)
    requires c.Valid() && Run(c, ss) && m <= k < |ss|
    ensures ss[m].saved <= ss[k].saved && ss[m].order <= ss[k].order && ss[m].restarted <= ss[k].restarted
    decreases k - m
  {
    if m < k {
      HistoryGrows(c, ss, m, k - 1);
      FileIsAlwaysComplete(c, ss, k - 1);
      assert Next(c, ss[k - 1], ss[k - 1 + 1]);
      var a :| Enabled(c, ss[k - 1], a) && ss[k] == Step(c, ss[k - 1], a);
      HistoryStep(c, ss[k - 1], a);
    }
  }

  /** Progress in the file only grows: from this run's first save on, a later state has at least the
      completed keys of an earlier one. */
  lemma {:induction false} FileOnlyGrows(c: Config, ss: seq<State>, m: nat, k: nat)
    requires c.Valid() && Run(c, ss) && m <= k < |ss|
    ensures ss[m].saved > 0 ==> Grows(ss[m].file, ss[k].file)
  {
    HistoryGrows(c, ss, m, k);
    FileIsAlwaysComplete(c, ss, m);
    FileIsAlwaysComplete(c, ss, k);
    if ss[m].saved > 0 {
      var later := ss[k].order[..ss[k].saved];
      assert later[..ss[m].saved] == ss[m].order[..ss[m].saved];
      ReplayMonotone(c.checkpoint, c.list, later, ss[m].saved);
    }
  }

  /** A run is a run of the batch group, with steps that the group does not see left out. */
  lemma {:induction false} RunGroup(c: Config, ss: seq<State>, k: nat) returns (gs: seq<G.Group>)
    requires c.Valid() && Run(c, ss) && k < |ss|
    ensures G.Run(gs, |c.list|, c.limit) && gs[|gs| - 1] == ss[k].group
  {
    if k == 0 {
      gs := [G.Init(|c.list|)];
    } else {
      gs := RunGroup(c, ss, k - 1);
      assert Next(c, ss[k - 1], ss[k - 1 + 1]);
      var a :| Enabled(c, ss[k - 1], a) && ss[k] == Step(c, ss[k - 1], a);
      StepsRefineGroup(c, ss[k - 1], a);
      if ss[k].group != ss[k - 1].group {
        gs := gs + [ss[k].group];
      }
    }
  }

  /** At most `limit` restarts run at once, and an active worker proves that every worker of every
      earlier batch has returned nil: a failure keeps all later batches from starting. */
  lemma {:induction false} RestartsAreBatched(c: Config, ss: seq<State>, k: nat)
    requires c.Valid() && Run(c, ss) && k < |ss|
    ensures G.CountActive(ss[k].group.jobs) <= c.limit
    ensures |ss[k].group.jobs| == |c.list|
    ensures forall j: nat, i: nat :: i < |c.list| && G.EarlierBatch(j, i, c.limit) && !ss[k].group.jobs[i].Queued? ==>
      j in ss[k].restarted && ss[k].group.jobs[j].Passed?
  {
    var gs := RunGroup(c, ss, k);
    G.BatchDiscipline(gs, |c.list|, c.limit, |gs| - 1);
    RunInv(c, ss, k);
    forall j: nat, i: nat | i < |c.list| && G.EarlierBatch(j, i, c.limit) && !ss[k].group.jobs[i].Queued?
      ensures j in ss[k].restarted && ss[k].group.jobs[j].Passed?
    {
      assert WorkerInv(c, ss[k], j);
    }
  }

  /** In terms of batch numbers. */
  lemma {:induction false} BatchesInOrder(c: Config, ss: seq<State>, k: nat)
    requires c.Valid() && Run(c, ss) && k < |ss|
    ensures forall j: nat, i: nat | i < |ss[k].group.jobs| && j / c.limit < i / c.limit ::
      !ss[k].group.jobs[i].Queued? ==> j in ss[k].restarted
  {
    RestartsAreBatched(c, ss, k);
    forall j: nat, i: nat | i < |ss[k].group.jobs| && j / c.limit < i / c.limit
      ensures !ss[k].group.jobs[i].Queued? ==> j in ss[k].restarted
    {
      G.EarlierBatchMeaning(j, i, c.limit);
    }
  }

  /** A worker may start as soon as one of its batch has. */
  lemma {:induction false} CompanionsMayStart(c: Config, ss: seq<State>, k: nat)
    requires c.Valid() && Run(c, ss) && k < |ss|
    ensures forall j: nat, i: nat | i < |ss[k].group.jobs| && j < |ss[k].group.jobs| && j / c.limit == i / c.limit ::
      ss[k].group.outcome.None? && ss[k].group.jobs[i].Queued? && !ss[k].group.jobs[j].Queued? ==>
        Enabled(c, ss[k], Start(i))
  {
    var gs := RunGroup(c, ss, k);
    G.RunInv(gs, |c.list|, c.limit, |gs| - 1);
    RunInv(c, ss, k);
    var g := ss[k].group;
    forall j: nat, i: nat | i < |g.jobs| && j < |g.jobs| && j / c.limit == i / c.limit
      ensures g.outcome.None? && g.jobs[i].Queued? && !g.jobs[j].Queued? ==> Enabled(c, ss[k], Start(i))
    {
      if g.outcome.None? && g.jobs[i].Queued? && !g.jobs[j].Queued? {
        G.CompanionInBatch(g, c.limit, i, j);
      }
    }
  }

  /** runWorkloads returns nil exactly when every workload's restart returned nil. */
  lemma {:induction false} RunnerOutcome(c: Config, ss: seq<State>, k: nat)
    requires c.Valid() && Run(c, ss) && k < |ss| && ss[k].group.outcome.Some?
    ensures ss[k].group.outcome.value <==> forall i: nat :: i < |c.list| ==> i in ss[k].restarted
    ensures !ss[k].group.outcome.value ==> exists i: nat :: i < |c.list| && !c.ReturnsNil(i)
    ensures ss[k].group.outcome.value && c.saves ==> forall i: nat :: i < |c.list| ==> i in ss[k].order
  {
    RunInv(c, ss, k);
    G.OutcomeMeaning(ss[k].group, c.limit);
    if ss[k].group.outcome.value {
      forall i: nat | i < |c.list| ensures i in ss[k].restarted && (c.saves ==> i in ss[k].order) {
        assert WorkerInv(c, ss[k], i);
      }
    } else {
      var i: nat :| i < |ss[k].group.jobs| && ss[k].group.jobs[i].Broken?;
      assert WorkerInv(c, ss[k], i);
    }
  }

  /** The checkpoint in memory: what it started with and the workers marked so far, all of them when the run
      has ended well. */
  lemma {:induction false} Recorded(c: Config, ss: seq<State>, k: nat)
    requires c.Valid() && Run(c, ss) && k < |ss|
    ensures ss[k].checkpoint.nodeName == c.checkpoint.nodeName && ss[k].checkpoint.context == c.checkpoint.context
    ensures c.checkpoint.Completed() <= ss[k].checkpoint.Completed()
    ensures ss[k].group.outcome == Some(true) && c.saves ==>
      forall i: nat :: i < |c.list| ==> KeyOf(c.list[i]) in ss[k].checkpoint.Completed()
  {
    FileIsAlwaysComplete(c, ss, k);
    Replayed(c, ss, k);
    ReplayMeaning(c.checkpoint, c.list, ss[k].order);
    if ss[k].group.outcome == Some(true) && c.saves {
      RunnerOutcome(c, ss, k);
      forall i: nat | i < |c.list| ensures KeyOf(c.list[i]) in ss[k].checkpoint.Completed() {
        assert i in ss[k].order;
        var a :| 0 <= a < |ss[k].order| && ss[k].order[a] == i;
        assert KeyOf(c.list[ss[k].order[a]]) in KeysAt(c.list, ss[k].order);
      }
    }
  }

  lemma Replayed(c: Config, ss: seq<State>, k: nat)
    requires c.Valid() && Run(c, ss) && k < |ss|
    ensures ss[k].checkpoint == Replay(c.checkpoint, c.list, ss[k].order)
  {
    RunInv(c, ss, k);
  }

  /** No reachable state of an unfinished run is stuck: the checkpoint mutex is always released, and
      a batch always starts all its workers before it is joined. */
  lemma RunnerProgress(c: Config, s: State) returns (a: Action)
    requires Inv(c, s) && s.group.outcome.None?
    ensures Enabled(c, s, a)
  {
    if i: nat :| s.Active(i) {
      assert WorkerInv(c, s, i);
      var w := if s.tasks[i].AwaitSave? && s.mutex.Some? then s.mutex.value else i;
      match s.tasks[w]
      case Restarting => a := if s.Sending(c, w) then Send(w) else RestartReturns(w);
      case AwaitSave => a := Lock(w);
      case Marking => a := MarkDone(w);
      case Opening => a := Open(w, true);
      case Writing => a := WriteAll(w, true);
      case Renaming => a := Rename(w, true);
      case Unlocking => a := Unlock(w);
    } else if i: nat :| i < |s.tasks| && s.group.InBatch(i, c.limit) && s.group.jobs[i].Queued? {
      a := Start(i);
    } else {
      forall i | s.group.start <= i < s.group.End(c.limit) && i < |s.group.jobs|
        ensures s.group.jobs[i].Passed? || s.group.jobs[i].Broken?
      {
        assert !s.Active(i) && s.group.InBatch(i, c.limit);
      }
      a := Join;
    }
  }

  /** The writes of a run: only listed workloads are patched, each at most once; a worker counts as
      restarted only if its restart returned nil, and then all of that restart's writes are in the trace,
      its patch among them when its body ran; a dry run writes nothing at all. */
  lemma {:induction false} RunnerWrites(c: Config, ss: seq<State>, k: nat)
    requires c.Valid() && Run(c, ss) && k < |ss|
    ensures forall w :: w in ss[k].log ==> Allowed(c, w)
    ensures c.dryRun ==> ss[k].log == []
    ensures DistinctKeys(c.list) ==> PatchesOnce(ss[k])
    ensures forall i :: i in ss[k].restarted && i < |c.list| ==>
      c.ReturnsNil(i) && forall w :: w in c.Writes(i) ==> w in ss[k].log
  {
    assert ss[k].log != [] ==> ss[k].log[0] in ss[k].log;
    RunInv(c, ss, k);
    forall i | i in ss[k].restarted && i < |c.list|
      ensures c.ReturnsNil(i) && forall w :: w in c.Writes(i) ==> w in ss[k].log
    {
      assert WorkerInv(c, ss[k], i) && SentInv(c, ss[k], i);
      forall w | w in c.Writes(i) ensures w in ss[k].log {
        var m :| 0 <= m < |c.Writes(i)| && c.Writes(i)[m] == w;
        assert Sent(c, ss[k], i, m, w);
      }
    }
  }

  // ----- every run ends -----

  /** How far a worker is from its end, given how many writes its restart has still to send. */
  function Rank(j: G.Job, t: Task, left: int): int {
    match j
    case Queued => 9 + left
    case Active => (match t
      case Restarting => 8 + left
      case AwaitSave => 7
      case Marking => 6
      case Opening => 5
      case Writing => 4
      case Renaming => 3
      case Unlocking => 2)
    case _ => 0
  }

  function RankOf(c: Config, s: State, i: nat): int
    requires |s.tasks| == |s.group.jobs| == |s.sent| == |c.list| && i < |c.list|
  {
    Rank(s.group.jobs[i], s.tasks[i], |c.Writes(i)| - s.sent[i])
  }

  function Ranks(c: Config, s: State): seq<int>
    requires |s.tasks| == |s.group.jobs| == |s.sent| == |c.list|
  {
    seq(|c.list|, i requires 0 <= i < |c.list| => RankOf(c, s, i))
  }

  function Sum(a: seq<int>): int {
    if a == [] then 0 else a[0] + Sum(a[1..])
  }

  lemma {:induction false} SumDrops(a: seq<int>, i: nat, x: int)
    requires i < |a| && x < a[i]
    ensures Sum(a[i := x]) < Sum(a)
  {
    if i == 0 {
      assert a[i := x][1..] == a[1..];
    } else {
      SumDrops(a[1..], i - 1, x);
      assert a[i := x][1..] == a[1..][i - 1 := x];
    }
  }

  lemma {:induction false} SumBounds(a: seq<int>, most: nat)
    requires forall i :: 0 <= i < |a| ==> 0 <= a[i] <= most
    ensures 0 <= Sum(a) <= most * |a|
  {
    if a != [] {
      SumBounds(a[1..], most);
      assert most * |a| == most * |a[1..]| + most;
    }
  }

  function Distance(c: Config, s: State): int
  {
    (if |s.tasks| == |s.group.jobs| == |s.sent| == |c.list| then Sum(Ranks(c, s)) else 0) +
    (|c.list| - s.group.start) + if s.group.outcome.None? then 1 else 0
  }

  /** A worker's own step brings it nearer to its end. */
  lemma WorkerNearsEnd(c: Config, s: State, a: Action)
    requires |s.tasks| == |s.group.jobs| == |s.sent| == |c.list| && Enabled(c, s, a) && !a.Join?
    requires a.worker < |c.list| ==> s.sent[a.worker] <= |c.Writes(a.worker)|
    ensures var s' := Step(c, s, a);
      a.worker < |s.tasks| && |s'.tasks| == |s'.group.jobs| == |s'.sent| == |c.list| &&
      s'.group.start == s.group.start && s'.group.outcome == s.group.outcome &&
      RankOf(c, s', a.worker) < RankOf(c, s, a.worker)
  {}

  /** Every step brings the run nearer to its end. */
  lemma StepNearsEnd(c: Config, s: State, a: Action)
    requires ShapeInv(c, s) && AllSentInv(c, s) && Enabled(c, s, a) && ShapeInv(c, Step(c, s, a))
    ensures Distance(c, Step(c, s, a)) < Distance(c, s)
  {
    var s' := Step(c, s, a);
    if a.Join? {
      assert Ranks(c, s') == Ranks(c, s);
    } else {
      assert a.worker < |c.list| ==> SentInv(c, s, a.worker);
      WorkerNearsEnd(c, s, a);
      forall i: nat | i < |c.list| && i != a.worker ensures RankOf(c, s', i) == RankOf(c, s, i) {
        StepElsewhere(c, s, a, i);
      }
      NearerSum(c, s, s', a.worker);
    }
  }

  lemma NearerSum(c: Config, s: State, s': State, i: nat)
    requires |s.tasks| == |s.group.jobs| == |s.sent| == |c.list| && i < |c.list|
    requires |s'.tasks| == |s'.group.jobs| == |s'.sent| == |c.list|
    requires forall j: nat :: j < |c.list| && j != i ==> RankOf(c, s', j) == RankOf(c, s, j)
    requires RankOf(c, s', i) < RankOf(c, s, i)
    ensures Sum(Ranks(c, s')) < Sum(Ranks(c, s))
  {
    assert Ranks(c, s') == Ranks(c, s)[i := RankOf(c, s', i)];
    SumDrops(Ranks(c, s), i, RankOf(c, s', i));
  }

  lemma DistanceBounds(c: Config, s: State)
    requires Inv(c, s)
    ensures 0 <= Distance(c, s) <= 13 * |c.list| + 1
  {
    forall i | 0 <= i < |c.list| ensures 0 <= Ranks(c, s)[i] <= 12 {
      assert SentInv(c, s, i);
      }
    SumBounds(Ranks(c, s), 12);
  }

  lemma {:induction false} RunNearsEnd(c: Config, ss: seq<State>, k: nat)
    requires c.Valid() && Run(c, ss) && k < |ss|
    ensures k + Distance(c, ss[k]) <= 13 * |c.list| + 1
  {
    if k == 0 {
      InitInv(c);
      DistanceBounds(c, ss[0]);
    } else {
      RunNearsEnd(c, ss, k - 1);
      StepOfRun(c, ss, k - 1);
    }
  }

  lemma StepOfRun(c: Config, ss: seq<State>, k: nat)
    requires c.Valid() && Run(c, ss) && k + 1 < |ss|
    ensures Distance(c, ss[k + 1]) < Distance(c, ss[k])
  {
    RunInv(c, ss, k);
    RunInv(c, ss, k + 1);
    assert Next(c, ss[k], ss[k + 1]);
    var a :| Enabled(c, ss[k], a) && ss[k + 1] == Step(c, ss[k], a);
    StepNearsEnd(c, ss[k], a);
  }

  ghost predicate Stuck(c: Config, s: State) {
    forall a :: !Enabled(c, s, a)
  }

  /** Every run ends: N workloads take at most 13 N + 1 steps in any interleaving, writes included, and a
      run that cannot be continued is one whose outcome is decided. */
  lemma {:induction false} EveryRunEnds(c: Config, ss: seq<State>)
    requires c.Valid() && Run(c, ss)
    ensures |ss| <= 13 * |c.list| + 2
    ensures Stuck(c, ss[|ss| - 1]) <==> ss[|ss| - 1].group.outcome.Some?
  {
    var last := ss[|ss| - 1];
    RunNearsEnd(c, ss, |ss| - 1);
    RunInv(c, ss, |ss| - 1);
    DistanceBounds(c, last);
    if last.group.outcome.None? {
      var a := RunnerProgress(c, last);
    } else {
      DecidedIsStuck(c, last);
    }
  }

  lemma DecidedIsStuck(c: Config, s: State)
    requires ShapeInv(c, s) && s.group.outcome.Some?
    ensures Stuck(c, s)
  {
    assert forall i: nat :: s.Active(i) ==> s.group.InBatch(i, c.limit);
  }

  /** A run observed to its end. */
  ghost predicate Ended(c: Config, ss: seq<State>) {
    Run(c, ss) && ss[|ss| - 1].group.outcome.Some?
  }

  lemma ExtendRun(c: Config, ss: seq<State>, a: Action)
    requires Run(c, ss) && Enabled(c, ss[|ss| - 1], a)
    ensures Run(c, ss + [Step(c, ss[|ss| - 1], a)])
  {
    var more := ss + [Step(c, ss[|ss| - 1], a)];
    forall k | 0 <= k < |more| - 1 ensures Next(c, more[k], more[k + 1]) {
      if k < |ss| - 1 {
        assert more[k] == ss[k] && more[k + 1] == ss[k + 1];
      }
    }
  }

  /** Every run, wherever it has got to, can be carried on to its end. */
  lemma {:induction false} EveryRunCanEnd(c: Config, ss: seq<State>) returns (more: seq<State>)
    requires c.Valid() && Run(c, ss)
    ensures Ended(c, ss + more)
    decreases 13 * |c.list| + 2 - |ss|
  {
    var s := ss[|ss| - 1];
    RunInv(c, ss, |ss| - 1);
    if s.group.outcome.Some? {
      more := [];
      assert ss + more == ss;
    } else {
      var a := RunnerProgress(c, s);
      var longer := ss + [Step(c, s, a)];
      ExtendRun(c, ss, a);
      EveryRunEnds(c, longer);
      var tail := EveryRunCanEnd(c, longer);
      more := [Step(c, s, a)] + tail;
      assert ss + more == longer + tail;
    }
  }
}
