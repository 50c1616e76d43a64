/** Rolling restarts of many node drains over one shared coordinator.

    A request is one rollingRestart call: a node and a workload found on it. It goes through Do,
    whose fn is the restart-and-rollout body, and then polls its own node until no pod is left. */
module Restarts {
  import opened Kube
  import opened Workloads
  import C = Coordinator

  datatype Request = Request(node: string, workload: Workload)

  datatype Phase = InDo | Vacating | Finished(ok: bool)

  datatype State = State(requests: seq<Request>, coord: C.State, phases: seq<Phase>)

  function KeysOf(requests: seq<Request>): seq<string> {
    seq(|requests|, i requires 0 <= i < |requests| => KeyOf(requests[i].workload))
  }

  function Init(requests: seq<Request>): State {
    State(requests, C.Init(KeysOf(requests)), seq(|requests|, _ => InDo))
  }

  /** What one poll of the node answers: a pod count, an absorbed error, or a fatal one. */
  datatype Poll = Counted(pods: nat) | Transient | Fatal

  /** A step of Do; its return decides whether the request goes on to poll its node. */
  function DoStep(s: State, t: nat, choice: bool): State
    requires t < |s.phases| && s.phases[t].InDo? && C.Enabled(s.coord, t)
  {
    AfterDo(s, t, C.Step(s.coord, t, choice))
  }

  function AfterDo(s: State, t: nat, coord: C.State): State
    requires t < |s.phases| && t < |coord.calls|
  {
    match coord.Pc(t)
    case Returned(Nil) => s.(coord := coord, phases := s.phases[t := Vacating])
    case Returned(_) =>
      s.(coord := coord.Logging(C.RestartReturned(t, coord.Key(t), false)), phases := s.phases[t := Finished(false)])
    case _ => s.(coord := coord)
  }

  function PollStep(s: State, t: nat, poll: Poll): State
    requires t < |s.phases| && s.phases[t].Vacating? && t < |s.coord.calls|
  {
    var key := s.coord.Key(t);
    match poll
    case Counted(n) =>
      var counted := s.coord.Logging(C.PodsCounted(t, key, n));
      if n > 0 then s.(coord := counted)
      else s.(coord := counted.Logging(C.RestartReturned(t, key, true)), phases := s.phases[t := Finished(true)])
    case Transient => s
    case Fatal =>
      s.(coord := s.coord.Logging(C.RestartReturned(t, key, false)), phases := s.phases[t := Finished(false)])
  }

  predicate CanStep(s: State, t: nat) {
    t < |s.phases| && s.phases[t].InDo? && C.Enabled(s.coord, t)
  }

  predicate Polling(s: State, t: nat) {
    t < |s.phases| && s.phases[t].Vacating? && t < |s.coord.calls|
  }

  ghost predicate Next(s: State, s': State) {
    || (exists t: nat, choice :: CanStep(s, t) && s' == DoStep(s, t, choice))
    || (exists t: nat, poll :: Polling(s, t) && s' == PollStep(s, t, poll))
  }

  ghost predicate Run(ss: seq<State>) {
    |ss| > 0 && (exists requests :: ss[0] == Init(requests)) &&
    forall i :: 0 <= i < |ss| - 1 ==> Next(ss[i], ss[i + 1])
  }

  /** The nil return at `r` comes after a success of the workload's restart body, and after an
      observation, made later than that success, of zero pods left on the request's own node. */
  ghost predicate NodeClearedBefore(log: seq<C.Event>, r: int)
    requires 0 <= r < |log| && log[r].RestartReturned?
  {
    exists i, o :: i < o < r && C.OkAt(log, i, log[r].key) && log[o] == C.PodsCounted(log[r].call, log[r].key, 0)
  }

  ghost predicate ReturnsJustified(log: seq<C.Event>) {
    forall r :: 0 <= r < |log| && log[r].RestartReturned? && log[r].ok ==> NodeClearedBefore(log, r)
  }

  ghost predicate PhasesInv(s: State) {
    |s.phases| == |s.requests| == |s.coord.calls| &&
    forall t :: 0 <= t < |s.phases| ==>
      s.coord.Key(t) == KeyOf(s.requests[t].workload) &&
      (s.phases[t].Vacating? || s.phases[t] == Finished(true) ==> C.Done(s.coord.log, s.coord.Key(t)))
  }

  ghost predicate EventsNamed(s: State) {
    forall r :: 0 <= r < |s.coord.log| && s.coord.log[r].RestartReturned? ==>
      s.coord.log[r].call < |s.requests| && s.coord.log[r].key == KeyOf(s.requests[s.coord.log[r].call].workload)
  }

  ghost predicate Inv(s: State) {
    C.Inv(s.coord) && PhasesInv(s) && EventsNamed(s) && ReturnsJustified(s.coord.log)
  }

  lemma JustifiedAppend(log: seq<C.Event>, e: C.Event)
    requires ReturnsJustified(log)
    requires e.RestartReturned? && e.ok ==>
      exists i, o :: i < o < |log| && C.OkAt(log, i, e.key) && log[o] == C.PodsCounted(e.call, e.key, 0)
    ensures ReturnsJustified(log + [e])
  {
    var after := log + [e];
    forall r | 0 <= r < |after| && after[r].RestartReturned? && after[r].ok
      ensures NodeClearedBefore(after, r)
    {
      assert r < |log| ==> NodeClearedBefore(log, r);
      var i, o :| i < o < r && C.OkAt(log, i, after[r].key) && log[o] == C.PodsCounted(after[r].call, after[r].key, 0);
      assert C.OkAt(after, i, after[r].key) && after[o] == log[o];
    }
  }

  /** Events a caller writes after Do has returned do not disturb the coordinator. */
  lemma QuietLog(c: C.State, e: C.Event)
    requires C.Inv(c) && (e.PodsCounted? || e.RestartReturned?)
    ensures C.Inv(c.Logging(e))
    ensures forall k :: C.Done(c.Logging(e).log, k) <==> C.Done(c.log, k)
  {
    C.QuietAppend(c.log, e);
    var c' := c.Logging(e);
    assert forall t :: 0 <= t < |c.calls| ==> c'.Pc(t) == c.Pc(t) && c'.Key(t) == c.Key(t);
    forall k | C.Done(c'.log, k)
      ensures k in c'.done || exists t :: 0 <= t < |c'.calls| && c'.Key(t) == k && c'.Pc(t).Succeeded()
    {
      if k !in c.done {
        var t :| 0 <= t < |c.calls| && c.Key(t) == k && c.Pc(t).Succeeded();
        assert c'.Key(t) == k && c'.Pc(t).Succeeded();
      }
    }
  }

  /** Successes are never forgotten, and a coordinator step logs no caller event. */
  lemma StepLog(c: C.State, t: nat, choice: bool)
    requires C.Inv(c) && C.Enabled(c, t)
    ensures c.log <= C.Step(c, t, choice).log
    ensures forall k :: C.Done(c.log, k) ==> C.Done(C.Step(c, t, choice).log, k)
    ensures ReturnsJustified(c.log) ==> ReturnsJustified(C.Step(c, t, choice).log)
  {
    var c' := C.Step(c, t, choice);
    forall k | C.Done(c.log, k) ensures C.Done(c'.log, k) {
      var i :| C.OkAt(c.log, i, k);
      assert C.OkAt(c'.log, i, k);
    }
    if ReturnsJustified(c.log) && c'.log != c.log {
      JustifiedAppend(c.log, c'.log[|c.log|]);
    }
  }

  /** The invariant is kept while Do runs on, and when it returns. */
  lemma Reassemble(s: State, c: C.State, phases: seq<Phase>, t: nat)
    requires Inv(s) && C.Inv(c) && ReturnsJustified(c.log)
    requires t < |s.phases| == |phases| == |c.calls|
    requires forall u :: 0 <= u < |phases| ==> c.Key(u) == s.coord.Key(u) && (u != t ==> phases[u] == s.phases[u])
    requires forall k :: C.Done(s.coord.log, k) ==> C.Done(c.log, k)
    requires phases[t].Vacating? || phases[t] == Finished(true) ==> C.Done(c.log, c.Key(t))
    requires forall r :: 0 <= r < |c.log| && c.log[r].RestartReturned? ==>
      (r < |s.coord.log| && c.log[r] == s.coord.log[r]) || (c.log[r].call == t && c.log[r].key == c.Key(t))
    ensures Inv(s.(coord := c, phases := phases))
  {}

  lemma DoStepInv(s: State, t: nat, choice: bool)
    requires Inv(s) && t < |s.phases| && s.phases[t].InDo? && C.Enabled(s.coord, t)
    ensures Inv(DoStep(s, t, choice))
  {
    C.InvStep(s.coord, t, choice);
    C.OthersUntouched(s.coord, t, choice);
    StepLog(s.coord, t, choice);
    NoRestartEvent(s.coord, t, choice);
    DoReturns(s, t, C.Step(s.coord, t, choice));
  }

  /** What a step of Do leaves to its callers: their keys, what they logged, and all successes. */
  ghost predicate Follows(s: State, t: nat, c: C.State) {
    t < |s.phases| && C.Moves(s.coord, t, c) && C.Inv(c) && ReturnsJustified(c.log) && s.coord.log <= c.log &&
    (forall k :: C.Done(s.coord.log, k) ==> C.Done(c.log, k)) &&
    forall r :: |s.coord.log| <= r < |c.log| ==> !c.log[r].RestartReturned?
  }

  /** The request's phase follows what its call of Do has come to. */
  lemma DoReturns(s: State, t: nat, c: C.State)
    requires Inv(s) && Follows(s, t, c) && s.phases[t].InDo?
    ensures Inv(AfterDo(s, t, c))
  {
    if c.Pc(t).Returned? && c.Pc(t).outcome != C.Nil {
      DoFails(s, t, c);
    } else {
      assert c.Pc(t).Returned? ==> c.Pc(t).EndsWell();
      Reassemble(s, c, if c.Pc(t).Returned? then s.phases[t := Vacating] else s.phases, t);
    }
  }

  lemma DoFails(s: State, t: nat, c: C.State)
    requires Inv(s) && Follows(s, t, c) && s.phases[t].InDo?
    ensures var e := C.RestartReturned(t, c.Key(t), false);
      Inv(s.(coord := c.Logging(e), phases := s.phases[t := Finished(false)]))
  {
    var e := C.RestartReturned(t, c.Key(t), false);
    QuietLog(c, e);
    JustifiedAppend(c.log, e);
    Reassemble(s, c.Logging(e), s.phases[t := Finished(false)], t);
  }

  lemma NoRestartEvent(c: C.State, t: nat, choice: bool)
    requires C.Enabled(c, t)
    ensures forall r :: |c.log| <= r < |C.Step(c, t, choice).log| ==> !C.Step(c, t, choice).log[r].RestartReturned?
  {}

  lemma PollStepInv(s: State, t: nat, poll: Poll)
    requires Inv(s) && t < |s.phases| && s.phases[t].Vacating? && t < |s.coord.calls|
    ensures Inv(PollStep(s, t, poll))
  {
    match poll
    case Counted(n) =>
      CountKept(s, t, n);
      if n == 0 {
        ReturnNil(s.(coord := s.coord.Logging(C.PodsCounted(t, s.coord.Key(t), 0))), t, |s.coord.log|);
      }
    case Transient =>
    case Fatal =>
      QuietLog(s.coord, C.RestartReturned(t, s.coord.Key(t), false));
      JustifiedAppend(s.coord.log, C.RestartReturned(t, s.coord.Key(t), false));
  }

  lemma CountKept(s: State, t: nat, n: nat)
    requires Inv(s) && t < |s.coord.calls|
    ensures Inv(s.(coord := s.coord.Logging(C.PodsCounted(t, s.coord.Key(t), n))))
  {
    QuietLog(s.coord, C.PodsCounted(t, s.coord.Key(t), n));
    JustifiedAppend(s.coord.log, C.PodsCounted(t, s.coord.Key(t), n));
  }

  /** A poll that has just counted no pods may report the restart complete: its body has succeeded. */
  lemma ReturnNil(s: State, t: nat, o: nat)
    requires Inv(s) && t < |s.phases| && s.phases[t].Vacating? && o == |s.coord.log| - 1
    requires s.coord.log[o] == C.PodsCounted(t, s.coord.Key(t), 0)
    ensures Inv(s.(coord := s.coord.Logging(C.RestartReturned(t, s.coord.Key(t), true)),
                   phases := s.phases[t := Finished(true)]))
  {
    var key := s.coord.Key(t);
    var i :| C.OkAt(s.coord.log, i, key);
    assert i < o;
    QuietLog(s.coord, C.RestartReturned(t, key, true));
    JustifiedAppend(s.coord.log, C.RestartReturned(t, key, true));
  }

  lemma {:induction false} RunInv(ss: seq<State>, n: nat)
    requires Run(ss) && n < |ss|
    ensures forall m: nat :: m <= n ==> Inv(ss[m])
  {
    if n == 0 {
      C.InitInv(KeysOf(ss[0].requests));
    } else {
      RunInv(ss, n - 1);
      var s := ss[n - 1];
      assert Next(s, ss[n - 1 + 1]);
      if t: nat, choice :| CanStep(s, t) && ss[n] == DoStep(s, t, choice) {
        DoStepInv(s, t, choice);
      } else {
        var t: nat, poll :| Polling(s, t) && ss[n] == PollStep(s, t, poll);
        PollStepInv(s, t, poll);
      }
    }
  }

  /** Across all node drains that share the coordinator: the restart-and-rollout body of a workload
      succeeds at most once in the process, whichever nodes ask for it; and a restart reported
      complete for a node observed that node free of the workload's pods after that success. */
  lemma {:induction false} RestartOnceClearEverywhere(ss: seq<State>, n: nat)
    requires Run(ss) && n < |ss|
    ensures forall i, j, key :: C.OkAt(ss[n].coord.log, i, key) && C.OkAt(ss[n].coord.log, j, key) ==> i == j
    ensures forall r :: 0 <= r < |ss[n].coord.log| && ss[n].coord.log[r].RestartReturned? ==>
      ss[n].coord.log[r].call < |ss[n].requests| &&
      ss[n].coord.log[r].key == KeyOf(ss[n].requests[ss[n].coord.log[r].call].workload) &&
      (ss[n].coord.log[r].ok ==> NodeClearedBefore(ss[n].coord.log, r))
  {
    RunInv(ss, n);
  }
}
