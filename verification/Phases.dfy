/** Which writes each phase of a drain makes, and in what order the phases write. */
module Phases {
  import opened Kube
  import opened Workloads
  import opened Trace
  import opened Drain
  import C = Checkpoints
  import E = Eviction
  import R = Runner
  import S = Resume
  import StableSort

  /** A run of Drain.Run: its result, its writes, the dispatch order and the final GETs. */
  datatype Record = Record(ok: bool, t: Parts, sorted: seq<Workload>, log: seq<E.Look>)

  ghost predicate Possible(o: Options, env: Env, r: Record) {
    o.node != "" && Fair(env) && Outcome(o, env, r.ok, r.t, r.sorted, r.log)
  }

  /** A write of the restart phase, for a workload the drain may restart. */
  predicate RestartWrite(o: Options, env: Env, w: Write)
    requires env.discovered.Some?
  {
    match w
    case Patch(key) => !o.dryRun && key in Keys(Restarted(o, env))
    case CreateEvent => o.Events()
    case WriteTemp => o.hasPath && !o.dryRun
    case RenameTemp => o.hasPath && !o.dryRun
    case _ => false
  }

  /** A write of the eviction phase: the removal of an evictable pod that no filtered workload selects. */
  ghost predicate EvictionWrite(o: Options, env: Env, w: Write)
    requires env.discovered.Some?
  {
    env.eviction.listing.Ok? && (w.Evict? || w.Delete?) &&
    E.Justified(o.flags, LeftAlone(o, env), env.eviction.listing.value, w)
  }

  lemma DispatchedKeys(o: Options, env: Env, sorted: seq<Workload>, c: R.Config)
    requires o.node != "" && env.discovered.Some? && StableSort.StablySorted(Restarted(o, env), sorted)
    requires DispatchOf(o, env, sorted) == Execute(c)
    ensures Keys(c.list) <= Keys(Restarted(o, env))
    ensures DistinctKeys(Restarted(o, env)) ==> DistinctKeys(c.list)
  {
    var ws := Restarted(o, env);
    StableSort.StablySortedPermutes(ws, sorted);
    SameMembers(ws, sorted);
    var st := Settings(o, env, sorted);
    var d := S.Loaded(env.file, st).value;
    C.KeptMeaning(d, sorted, st.pods);
    assert c.list == sorted || c.list == C.Kept(d, sorted, st.pods);
    assert forall w :: w in c.list ==> w in ws;
  }

  predicate PatchesOnce(writes: seq<Write>) {
    forall a, b :: 0 <= a < b < |writes| && writes[a].Patch? ==> writes[a] != writes[b]
  }

  /** The writes of the restart phase. */
  lemma {:induction false} RestartPhase(o: Options, env: Env, sorted: seq<Workload>, ok: bool, writes: seq<Write>)
    requires o.node != "" && env.discovered.Some? && StableSort.StablySorted(Restarted(o, env), sorted)
    requires RestartsDone(o, env, sorted, ok, writes) && Fair(env)
    ensures forall w :: w in writes ==> RestartWrite(o, env, w)
    ensures o.dryRun ==> writes == []
    ensures DistinctKeys(Restarted(o, env)) ==> PatchesOnce(writes)
  {
    match DispatchOf(o, env, sorted)
    case Refuse =>
    case NothingLeft =>
    case Execute(c) =>
      DispatchedKeys(o, env, sorted, c);
      assert R.Ended(c, env.schedule(c));
      R.RunnerWrites(c, env.schedule(c), |env.schedule(c)| - 1);
  }

  /** The writes of the eviction phase. */
  lemma EvictionPhase(o: Options, env: Env, ok: bool, writes: seq<Write>, log: seq<E.Look>)
    requires env.discovered.Some? && EvictionsDone(o, env, ok, writes, log)
    ensures forall w :: w in writes ==> EvictionWrite(o, env, w)
    ensures o.dryRun ==> writes == []
  {}

  /** Both phases at once, for any possible run past the cordon. */
  lemma BodyWrites(o: Options, env: Env, r: Record)
    requires Underway(o, env) && Possible(o, env, r)
    ensures forall w :: w in r.t.restarts ==> RestartWrite(o, env, w)
    ensures forall w :: w in r.t.evictions ==> EvictionWrite(o, env, w)
    ensures o.dryRun ==> r.t.restarts == [] && r.t.evictions == []
    ensures DistinctKeys(Restarted(o, env)) ==> PatchesOnce(r.t.restarts)
  {
    if RestartsDone(o, env, r.sorted, false, r.t.restarts) && !r.ok && r.t.evictions == [] {
      RestartPhase(o, env, r.sorted, false, r.t.restarts);
    } else {
      RestartPhase(o, env, r.sorted, true, r.t.restarts);
      EvictionPhase(o, env, r.ok, r.t.evictions, r.log);
    }
  }

  // ----- the shape of a whole run -----

  function Beginning(o: Options, env: Env): seq<Write> {
    WriteIf(SendsCordon(o, env), Write.Cordon) + WriteIf(Underway(o, env) && o.Events(), CreateEvent)
  }

  function Finale(o: Options, env: Env, ok: bool): seq<Write> {
    if Underway(o, env) then Ending(o, env, ok) else []
  }

  /** Each phase has writes of its own kinds. */
  predicate KindsKept(t: Parts) {
    (forall w :: w in t.begin ==> w.Cordon? || w.CreateEvent?) &&
    (forall w :: w in t.restarts ==> w.Patch? || w.CreateEvent? || w.WriteTemp? || w.RenameTemp?) &&
    (forall w :: w in t.evictions ==> w.Evict? || w.Delete?) &&
    (forall w :: w in t.ending ==> w.Uncordon? || w.CreateEvent? || w.DeleteCheckpoint?)
  }

  /** A run that does not get past the cordon does nothing in between, and fails. */
  ghost predicate Between(o: Options, env: Env, r: Record) {
    if Underway(o, env) then
      (forall w :: w in r.t.restarts ==> RestartWrite(o, env, w)) &&
      (forall w :: w in r.t.evictions ==> EvictionWrite(o, env, w)) &&
      (o.dryRun ==> r.t.restarts == [] && r.t.evictions == [])
    else !r.ok && r.t.restarts == [] && r.t.evictions == []
  }

  lemma RunsHaveShape(o: Options, env: Env, r: Record)
    requires Possible(o, env, r)
    ensures r.t.begin == Beginning(o, env) && r.t.ending == Finale(o, env, r.ok) && Between(o, env, r)
    ensures KindsKept(r.t)
  {
    if Underway(o, env) {
      BodyWrites(o, env, r);
    }
    KindsOfEnds(o, env, r.ok);
    KindsBetween(o, env, r);
  }

  lemma KindsOfEnds(o: Options, env: Env, ok: bool)
    ensures forall w :: w in Beginning(o, env) ==> w.Cordon? || w.CreateEvent?
    ensures forall w :: w in Finale(o, env, ok) ==> w.Uncordon? || w.CreateEvent? || w.DeleteCheckpoint?
  {}

  lemma KindsBetween(o: Options, env: Env, r: Record)
    requires Between(o, env, r)
    ensures forall w :: w in r.t.restarts ==> w.Patch? || w.CreateEvent? || w.WriteTemp? || w.RenameTemp?
    ensures forall w :: w in r.t.evictions ==> w.Evict? || w.Delete?
  {}

  // ----- writes of one kind are writes of one phase -----

  function Count(writes: seq<Write>, w: Write): nat {
    multiset(writes)[w]
  }

  lemma Absent(writes: seq<Write>, w: Write)
    ensures w !in writes ==> Count(writes, w) == 0
  {}

  lemma AllCounts(t: Parts, w: Write)
    ensures Count(t.All(), w) == Count(t.begin, w) + Count(t.restarts, w) + Count(t.evictions, w) + Count(t.ending, w)
  {}

  lemma CordonsAtStart(t: Parts)
    requires KindsKept(t)
    ensures Write.Cordon in t.All() <==> Write.Cordon in t.begin
  {}

  lemma UncordonsAtEnd(t: Parts)
    requires KindsKept(t)
    ensures Count(t.All(), Write.Uncordon) == Count(t.ending, Write.Uncordon)
  {
    AllCounts(t, Write.Uncordon);
    Absent(t.begin, Write.Uncordon);
    Absent(t.restarts, Write.Uncordon);
    Absent(t.evictions, Write.Uncordon);
  }

  lemma CheckpointAtEnd(t: Parts)
    requires KindsKept(t)
    ensures DeleteCheckpoint in t.All() <==> DeleteCheckpoint in t.ending
  {}

  lemma PatchesInRestarts(t: Parts, key: string)
    requires KindsKept(t)
    ensures Count(t.All(), Patch(key)) == Count(t.restarts, Patch(key))
    ensures Patch(key) in t.All() <==> Patch(key) in t.restarts
  {
    AllCounts(t, Patch(key));
    Absent(t.begin, Patch(key));
    Absent(t.evictions, Patch(key));
    Absent(t.ending, Patch(key));
  }

  lemma RemovalsInEvictions(t: Parts, x: Write)
    requires KindsKept(t) && (x.Evict? || x.Delete?)
    ensures x in t.All() <==> x in t.evictions
  {}

  lemma OnceAtMost(writes: seq<Write>, w: Write)
    requires PatchesOnce(writes) && w.Patch?
    ensures Count(writes, w) <= 1
  {
    if a :| 0 <= a < |writes| && writes[a] == w {
      assert writes == writes[..a] + [w] + writes[a + 1..];
      assert w !in writes[..a] && w !in writes[a + 1..];
    }
  }
}
