/** Whole drains, one after another, over one checkpoint file: some succeed, some fail, some crash. */
module Sessions {
  import opened Kube
  import opened Workloads
  import opened Drain
  import opened Phases
  import C = Checkpoints
  import P = Promises
  import R = Runner
  import S = Resume
  import W = WorkloadRestart
  import StableSort

  /** One drain. `crash` is the worker state in which the process died, if it did; `removed` says whether
      the removal of the file after a success worked. */
  datatype Session = Session(o: Options, env: Env, r: Record, crash: Option<nat>, removed: bool)

  /** The drain came to run its workers, at least up to the state in which it crashed. */
  ghost predicate Worked(s: Session) {
    s.o.node != "" && Underway(s.o, s.env) && DispatchOf(s.o, s.env, s.r.sorted).Execute? &&
    R.Run(ConfigOf(s), s.env.schedule(ConfigOf(s))) &&
    (s.crash.Some? ==> s.crash.value < |s.env.schedule(ConfigOf(s))|)
  }

  ghost function ConfigOf(s: Session): R.Config
    requires s.o.node != "" && DispatchOf(s.o, s.env, s.r.sorted).Execute?
  {
    DispatchOf(s.o, s.env, s.r.sorted).config
  }

  /** How far the workers got. */
  ghost function LastIndex(s: Session): (n: nat)
    requires Worked(s)
    ensures n < |s.env.schedule(ConfigOf(s))|
  {
    if s.crash.Some? then s.crash.value else |s.env.schedule(ConfigOf(s))| - 1
  }

  ghost function LastState(s: Session): R.State
    requires Worked(s)
  {
    s.env.schedule(ConfigOf(s))[LastIndex(s)]
  }

  /** The drain ran to its end, or crashed while its workers ran. */
  ghost predicate Happened(s: Session) {
    if s.crash.None? then Possible(s.o, s.env, s.r)
    else Worked(s) && StableSort.StablySorted(Restarted(s.o, s.env), s.r.sorted)
  }

  predicate Removes(s: Session) {
    s.crash.None? && s.r.ok && s.o.hasPath && !s.o.dryRun && s.removed
  }

  /** What the drain leaves in the file, before and after the removal on success. */
  ghost function FileSaved(s: Session): Option<C.Content> {
    if Worked(s) then LastState(s).file else s.env.file
  }

  ghost function FileAfter(s: Session): Option<C.Content> {
    if Removes(s) then None else FileSaved(s)
  }

  ghost function FileBefore(ss: seq<Session>, initial: Option<C.Content>, k: nat): Option<C.Content>
    requires k <= |ss|
  {
    if k == 0 then initial else FileAfter(ss[k - 1])
  }

  ghost predicate Follows(ss: seq<Session>, initial: Option<C.Content>, k: nat)
    requires k < |ss|
  {
    Happened(ss[k]) && ss[k].env.file == FileBefore(ss, initial, k)
  }

  /** Each drain finds the file as the one before has left it. */
  ghost predicate Sequence(ss: seq<Session>, initial: Option<C.Content>) {
    forall k: nat :: k < |ss| ==> Follows(ss, initial, k)
  }

  /** Worker `i` of the drain had its restart return nil, outside dry run. */
  ghost predicate Made(s: Session, i: nat) {
    Worked(s) && !s.o.dryRun && i < |ConfigOf(s).list| && i in LastState(s).restarted
  }

  ghost predicate MadeBefore(ss: seq<Session>, k: nat, rec: S.Record)
    requires k <= |ss|
  {
    exists j: nat, i: nat :: j < k && Made(ss[j], i) &&
      rec == S.Record(ss[j].o.node, ss[j].o.context, ConfigOf(ss[j]).list[i])
  }

  // ----- a sequence of drains is a chain of runs -----

  lemma {:induction false} Prefix(c: R.Config, ss: seq<R.State>, n: nat)
    requires R.Run(c, ss) && n < |ss|
    ensures R.Run(c, ss[..n + 1]) && ss[..n + 1][n] == ss[n]
  {
    var front := ss[..n + 1];
    forall k | 0 <= k < |front| - 1 ensures R.Next(c, front[k], front[k + 1]) {
      assert front[k] == ss[k] && front[k + 1] == ss[k + 1];
    }
  }

  function SettingsOf(s: Session): S.Settings {
    Settings(s.o, s.env, s.r.sorted)
  }

  lemma WorkedIsARun(s: Session, before: S.World)
    requires Worked(s) && before.file == s.env.file
    ensures S.RunsTo(before, SettingsOf(s), S.Left(before, SettingsOf(s), ConfigOf(s), LastState(s)))
  {
    var st, c, n := SettingsOf(s), ConfigOf(s), LastIndex(s);
    var d := S.Loaded(s.env.file, st).value;
    S.RunnerConfigValid(s.env.file, d, st);
    assert c == S.RunnerConfig(before.file, d, st);
    var states := s.env.schedule(c)[..n + 1];
    Prefix(c, s.env.schedule(c), n);
    assert R.Run(c, states) && S.Left(before, st, c, LastState(s)) == S.Left(before, st, c, states[|states| - 1]);
  }

  lemma ExtendChain(ws: seq<S.World>, initial: Option<C.Content>, w: S.World)
    requires S.Chain(ws, initial) && S.Next(ws[|ws| - 1], w)
    ensures S.Chain(ws + [w], initial)
  {
    var more := ws + [w];
    forall k | 0 <= k < |more| - 1 ensures S.Next(more[k], more[k + 1]) {
      if k < |ws| - 1 {
        assert more[k] == ws[k] && more[k + 1] == ws[k + 1];
      }
    }
  }

  /** What the chain knows after `k` drains. */
  ghost predicate Tracks(w: S.World, ss: seq<Session>, initial: Option<C.Content>, k: nat)
    requires k <= |ss|
  {
    w.file == FileBefore(ss, initial, k) && forall rec :: rec in w.history ==> MadeBefore(ss, k, rec)
  }

  lemma TracksWorked(w: S.World, ss: seq<Session>, initial: Option<C.Content>, k: nat)
    requires k < |ss| && Worked(ss[k]) && Tracks(w, ss, initial, k)
    ensures var w' := S.Left(w, SettingsOf(ss[k]), ConfigOf(ss[k]), LastState(ss[k]));
      w'.file == FileSaved(ss[k]) && forall rec :: rec in w'.history ==> MadeBefore(ss, k + 1, rec)
  {
    var s := ss[k];
    var w' := S.Left(w, SettingsOf(s), ConfigOf(s), LastState(s));
    forall rec | rec in w'.history ensures MadeBefore(ss, k + 1, rec) {
      if rec in w.history {
        var j: nat, i: nat :| j < k && Made(ss[j], i) &&
          rec == S.Record(ss[j].o.node, ss[j].o.context, ConfigOf(ss[j]).list[i]);
        assert Made(ss[j], i);
      } else {
        var i: nat :| i in LastState(s).restarted && i < |ConfigOf(s).list| && !s.o.dryRun &&
          rec == S.Record(s.o.node, s.o.context, ConfigOf(s).list[i]);
        assert Made(ss[k], i);
      }
    }
  }

  /** The run of one more drain: its workers' run, if it came to that. */
  lemma OneMoreRun(ws: seq<S.World>, ss: seq<Session>, initial: Option<C.Content>, k: nat) returns (w: S.World)
    requires k < |ss| && ss[k].env.file == FileBefore(ss, initial, k) && Worked(ss[k])
    requires |ws| > 0 && Tracks(ws[|ws| - 1], ss, initial, k) && S.Chain(ws, initial)
    ensures S.Chain(ws + [w], initial)
    ensures w.file == FileSaved(ss[k]) && forall rec :: rec in w.history ==> MadeBefore(ss, k + 1, rec)
  {
    var s, before := ss[k], ws[|ws| - 1];
    WorkedIsARun(s, before);
    TracksWorked(before, ss, initial, k);
    w := S.Left(before, SettingsOf(s), ConfigOf(s), LastState(s));
    ExtendChain(ws, initial, w);
  }

  /** The runs behind one more drain. */
  lemma OneMoreDrain(ws: seq<S.World>, ss: seq<Session>, initial: Option<C.Content>, k: nat)
    returns (more: seq<S.World>)
    requires k < |ss| && ss[k].env.file == FileBefore(ss, initial, k)
    requires |ws| > 0 && Tracks(ws[|ws| - 1], ss, initial, k) && S.Chain(ws, initial)
    ensures S.Chain(more, initial) && Tracks(more[|more| - 1], ss, initial, k + 1)
  {
    more := ws;
    if Worked(ss[k]) {
      var w := OneMoreRun(ws, ss, initial, k);
      more := ws + [w];
    }
    if Removes(ss[k]) {
      var w := more[|more| - 1].(file := None);
      ExtendChain(more, initial, w);
      more := more + [w];
    }
  }

  lemma FileFound(ss: seq<Session>, initial: Option<C.Content>, k: nat)
    requires k < |ss| && Sequence(ss, initial)
    ensures ss[k].env.file == FileBefore(ss, initial, k)
  {
    assert Follows(ss, initial, k);
  }

  lemma ChainBegins(initial: Option<C.Content>)
    ensures S.Chain([S.World(initial, {}, true)], initial)
  {}

  /** The runs behind the first `k` drains. */
  lemma {:induction false} ChainOf(ss: seq<Session>, initial: Option<C.Content>, k: nat) returns (ws: seq<S.World>)
    requires Sequence(ss, initial) && k <= |ss|
    ensures S.Chain(ws, initial) && Tracks(ws[|ws| - 1], ss, initial, k)
  {
    if k == 0 {
      ws := [S.World(initial, {}, true)];
      ChainBegins(initial);
    } else {
      var before := ChainOf(ss, initial, k - 1);
      FileFound(ss, initial, k - 1);
      ws := OneMoreDrain(before, ss, initial, k - 1);
    }
  }

  // ----- what success means over a sequence of drains -----

  /** Drain `s` restarted the workload for the node: the same object, as far as both sides know its UID and
      generation, whose restart was admitted, rolled out if its body ran, and seen off the node. */
  ghost predicate RestartedIn(s: Session, i: nat, node: string, w: Workload) {
    Made(s, i) && s.o.node == node &&
    var x := ConfigOf(s).list[i];
    S.MayBeSame(x, w) && W.Works(x, s.env.answers(x))
  }

  lemma MadeMeansWorked(s: Session, i: nat)
    requires Made(s, i)
    ensures var x := ConfigOf(s).list[i]; W.ReturnsNil(x, false, s.env.answers(x))
  {
    var c := ConfigOf(s);
    S.RunnerConfigValid(s.env.file, S.Loaded(s.env.file, SettingsOf(s)).value, SettingsOf(s));
    R.RunnerWrites(c, s.env.schedule(c), LastIndex(s));
    assert c.restart(c.list[i]) == W.Of(c.list[i], s.o.dryRun, c.events, s.env.answers(c.list[i]));
  }

  /** An entry the sequence began with vouches for the workload. */
  predicate Trusted(initial: Option<C.Content>, s: Session, w: Workload) {
    S.TrustedFromStart(initial, w, s.env.podCount(w))
  }

  /** One of the first `k` drains did. */
  ghost predicate RestartedEarlier(ss: seq<Session>, k: nat, node: string, w: Workload)
    requires k <= |ss|
  {
    exists j: nat, i: nat :: j < k && RestartedIn(ss[j], i, node, w)
  }

  lemma RecordWasMade(world: S.World, ss: seq<Session>, k: nat, st: S.Settings, w: Workload)
    requires k <= |ss| && (forall rec :: rec in world.history ==> MadeBefore(ss, k, rec))
    requires S.RestartedBefore(world, st, w)
    ensures RestartedEarlier(ss, k, st.node, w)
  {
    var rec :| rec in world.history && rec.node == st.node && S.MayBeSame(rec.workload, w);
    var j: nat, i: nat :| j < k && Made(ss[j], i) &&
      rec == S.Record(ss[j].o.node, ss[j].o.context, ConfigOf(ss[j]).list[i]);
    MadeMeansWorked(ss[j], i);
    assert RestartedIn(ss[j], i, st.node, w);
  }

  lemma SkippedWasMade(ss: seq<Session>, initial: Option<C.Content>, k: nat, w: Workload)
    requires k < |ss| && ss[k].o.node != "" && w in ss[k].r.sorted
    requires P.SkippedNow(ss[k].o, ss[k].env, ss[k].r.sorted, w) && Sequence(ss, initial)
    ensures RestartedEarlier(ss, k, ss[k].o.node, w) || (initial.Some? && Trusted(initial, ss[k], w))
  {
    assert Follows(ss, initial, k);
    var s, st := ss[k], SettingsOf(ss[k]);
    var ws := ChainOf(ss, initial, k);
    var last := |ws| - 1;
    var n: nat :| n < |s.r.sorted| && s.r.sorted[n] == w;
    assert st.sorted[n] == w && st.pods[n] == s.env.podCount(w) && ws[last].file == s.env.file;
    S.SkipsAreSound(ws, initial, last, st, n);
    if S.RestartedBefore(ws[last], st, w) {
      RecordWasMade(ws[last], ss, k, st, w);
    }
  }

  /** Over every sequence of drains, whatever failed or crashed in between: when a drain succeeds, each of
      its workloads that is not filtered was restarted and seen off this node, in this drain or in an
      earlier one, or an entry of the file the sequence began with vouches for it. */
  lemma {:induction false} SuccessRestsOnRestarts(ss: seq<Session>, initial: Option<C.Content>, k: nat, w: Workload)
    requires k < |ss| && ss[k].crash.None? && ss[k].r.ok && !ss[k].o.dryRun
    requires ss[k].env.discovered.Some? && w in Restarted(ss[k].o, ss[k].env) && Sequence(ss, initial)
    ensures ss[k].o.node != ""
    ensures P.RestartedNow(ss[k].o, ss[k].env, ss[k].r, w) || RestartedEarlier(ss, k, ss[k].o.node, w) ||
      (initial.Some? && Trusted(initial, ss[k], w))
  {
    assert Follows(ss, initial, k);
    var s := ss[k];
    P.SuccessMeansDrained(s.o, s.env, s.r);
    if !P.RestartedNow(s.o, s.env, s.r, w) {
      StableSort.StablySortedPermutes(Restarted(s.o, s.env), s.r.sorted);
      SameMembers(Restarted(s.o, s.env), s.r.sorted);
      SkippedWasMade(ss, initial, k, w);
    }
  }
}
