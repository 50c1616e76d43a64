/** The restart coordinator shared by concurrent node drains, as a machine over atomic steps.

    Each element of `calls` is one call of Do, made by some goroutine; a goroutine may interleave
    with all others between any two steps. Mutexes are objects with an identity: `locks` maps a key
    to the mutex stored for it, `owner` says which call holds a mutex. */
module Coordinator {
  import opened Kube

  datatype Outcome = Nil | Cancelled | FnFailed

  /** Where a call is. The steps from AwaitRead on are under the key lock. */
  datatype Pc =
    | Entering                               // lockFor waits for the guard mutex
    | InLockFor                              // holds the guard
    | AwaitKey(lock: nat)
    | Checking(lock: nat)                    // about to test the context
    | AwaitRead(lock: nat)                   // waits for the guard before reading done
    | Reading(lock: nat)                     // holds the guard
    | InFn(lock: nat)
    | AwaitMark(lock: nat)                   // fn returned nil; waits for the guard
    | Marking(lock: nat)                     // holds the guard
    | Releasing(lock: nat, outcome: Outcome) // runs the deferred unlock
    | Returned(outcome: Outcome)
  {
    predicate HoldsGuard() { InLockFor? || Reading? || Marking? }

    predicate HoldsKey() {
      Checking? || AwaitRead? || Reading? || InFn? || AwaitMark? || Marking? || Releasing?
    }

    predicate KnowsLock() { HoldsKey() || AwaitKey? }

    /** fn has run, or may still run, under this call's key lock, and done is not yet written. */
    predicate Working() { InFn? || AwaitMark? || Marking? }

    /** fn has returned nil for this call, and done is not yet written. */
    predicate Succeeded() { AwaitMark? || Marking? }

    /** Do returns nil, or is about to. */
    predicate EndsWell() { (Releasing? || Returned?) && outcome == Nil }

    function Remaining(): nat {
      match this
      case Entering => 10
      case InLockFor => 9
      case AwaitKey(_) => 8
      case Checking(_) => 7
      case AwaitRead(_) => 6
      case Reading(_) => 5
      case InFn(_) => 4
      case AwaitMark(_) => 3
      case Marking(_) => 2
      case Releasing(_, _) => 1
      case Returned(_) => 0
    }
  }

  datatype Call = Call(key: string, pc: Pc)

  /** What an observer sees. The last two kinds are written by callers after Do has returned. */
  datatype Event =
    | FnStarted(call: nat, key: string)
    | FnReturned(call: nat, key: string, ok: bool)
    | DoReturned(call: nat, key: string, outcome: Outcome)
    | PodsCounted(call: nat, key: string, count: nat)
    | RestartReturned(call: nat, key: string, ok: bool)

  datatype State = State(
    calls: seq<Call>,
    guard: Option<nat>,
    locks: map<string, nat>,
    owner: map<nat, nat>,
    done: set<string>,
    log: seq<Event>)
  {
    function Pc(t: nat): Pc requires t < |calls| { calls[t].pc }

    function Key(t: nat): string requires t < |calls| { calls[t].key }

    function At(t: nat, pc: Pc): State
      requires t < |calls|
    {
      this.(calls := calls[t := calls[t].(pc := pc)])
    }

    function Logging(e: Event): State {
      this.(log := log + [e])
    }
  }

  /** Any number of calls, on any keys, none of which has begun. */
  function Init(keys: seq<string>): State {
    State(seq(|keys|, i requires 0 <= i < |keys| => Call(keys[i], Entering)), None, map[], map[], {}, [])
  }

  /** A call can take its next step unless it waits for a held mutex or has returned. */
  predicate Enabled(s: State, t: nat) {
    t < |s.calls| &&
    match s.Pc(t)
    case Entering => s.guard.None?
    case AwaitRead(_) => s.guard.None?
    case AwaitMark(_) => s.guard.None?
    case AwaitKey(lock) => lock !in s.owner
    case Returned(_) => false
    case _ => true
  }

  function LocksWith(s: State, key: string): map<string, nat> {
    if key in s.locks then s.locks else s.locks[key := |s.locks|]
  }

  /** Where the next step of call `t` takes it. `choice` resolves what the environment decides:
      whether the context is still live, and whether fn succeeds. */
  function NextPc(s: State, t: nat, choice: bool): Pc
    requires Enabled(s, t)
  {
    match s.Pc(t)
    case Entering => InLockFor
    case InLockFor => AwaitKey(LocksWith(s, s.Key(t))[s.Key(t)])
    case AwaitKey(lock) => Checking(lock)
    case Checking(lock) => if choice then AwaitRead(lock) else Releasing(lock, Cancelled)
    case AwaitRead(lock) => Reading(lock)
    case Reading(lock) => if s.Key(t) in s.done then Releasing(lock, Nil) else InFn(lock)
    case InFn(lock) => if choice then AwaitMark(lock) else Releasing(lock, FnFailed)
    case AwaitMark(lock) => Marking(lock)
    case Marking(lock) => Releasing(lock, Nil)
    case Releasing(_, outcome) => Returned(outcome)
  }

  /** One step of call `t`. */
  function Step(s: State, t: nat, choice: bool): State
    requires Enabled(s, t)
  {
    var key := s.Key(t);
    var s' := s.At(t, NextPc(s, t, choice));
    match s.Pc(t)
    case Entering => s'.(guard := Some(t))
    case InLockFor => s'.(guard := None, locks := LocksWith(s, key))
    case AwaitKey(lock) => s'.(owner := s.owner[lock := t])
    case Checking(_) => s'
    case AwaitRead(_) => s'.(guard := Some(t))
    case Reading(_) => if key in s.done then s'.(guard := None) else s'.(guard := None).Logging(FnStarted(t, key))
    case InFn(_) => s'.Logging(FnReturned(t, key, choice))
    case AwaitMark(_) => s'.(guard := Some(t))
    case Marking(_) => s'.(guard := None, done := s.done + {key})
    case Releasing(lock, outcome) => s'.(owner := s.owner - {lock}).Logging(DoReturned(t, key, outcome))
  }

  ghost predicate Next(s: State, s': State) {
    exists t, choice :: Enabled(s, t) && s' == Step(s, t, choice)
  }

  /** A run: any finite interleaving of any number of calls. */
  ghost predicate Run(ss: seq<State>) {
    |ss| > 0 && (exists keys :: ss[0] == Init(keys)) &&
    forall i :: 0 <= i < |ss| - 1 ==> Next(ss[i], ss[i + 1])
  }

  // ----- the shared structures -----

  ghost predicate GuardInv(s: State) {
    (s.guard.Some? ==> s.guard.value < |s.calls| && s.Pc(s.guard.value).HoldsGuard()) &&
    forall t :: 0 <= t < |s.calls| && s.Pc(t).HoldsGuard() ==> s.guard == Some(t)
  }

  ghost predicate LocksInv(s: State) {
    (forall k :: k in s.locks ==> s.locks[k] < |s.locks|) &&
    (forall k, k' :: k in s.locks && k' in s.locks && s.locks[k] == s.locks[k'] ==> k == k') &&
    forall t :: 0 <= t < |s.calls| && s.Pc(t).KnowsLock() ==> s.Key(t) in s.locks && s.locks[s.Key(t)] == s.Pc(t).lock
  }

  ghost predicate OwnerInv(s: State) {
    (forall t :: 0 <= t < |s.calls| && s.Pc(t).HoldsKey() ==> s.Pc(t).lock in s.owner && s.owner[s.Pc(t).lock] == t) &&
    forall l :: l in s.owner ==>
      s.owner[l] < |s.calls| && s.Pc(s.owner[l]).HoldsKey() && s.Pc(s.owner[l]).lock == l
  }

  ghost predicate SharedInv(s: State) {
    GuardInv(s) && LocksInv(s) && OwnerInv(s)
  }

  /** The key lock excludes: two calls under the lock of one key are the same call. */
  lemma OneHolderPerKey(s: State, t: nat, u: nat)
    requires SharedInv(s) && t < |s.calls| && u < |s.calls|
    requires s.Pc(t).HoldsKey() && s.Pc(u).HoldsKey() && s.Key(t) == s.Key(u)
    ensures t == u
  {}

  /** A step moves its own call only, and no call ever changes key. */
  lemma OthersUntouched(s: State, t: nat, choice: bool)
    requires Enabled(s, t)
    ensures Step(s, t, choice).calls == s.calls[t := Call(s.Key(t), NextPc(s, t, choice))]
    ensures Moves(s, t, Step(s, t, choice))
  {}

  ghost predicate Moves(s: State, t: nat, s': State) {
    t < |s.calls| && |s'.calls| == |s.calls| &&
    forall u :: 0 <= u < |s.calls| ==> s'.Key(u) == s.Key(u) && (u != t ==> s'.Pc(u) == s.Pc(u))
  }

  /** The guard is taken free, and given back by its holder. */
  predicate GuardMoves(s: State, t: nat, s': State)
    requires t < |s.calls| && t < |s'.calls|
  {
    if s'.Pc(t).HoldsGuard() then s.guard.None? && s'.guard == Some(t)
    else s'.guard == if s.Pc(t).HoldsGuard() then None else s.guard
  }

  /** A call learns its lock once, in lockFor, where a key gets a new mutex only if it has none. */
  predicate LocksMove(s: State, t: nat, s': State)
    requires t < |s.calls| && t < |s'.calls|
  {
    var key := s.Key(t);
    s'.locks == (if s.Pc(t).InLockFor? && key !in s.locks then s.locks[key := |s.locks|] else s.locks) &&
    (s'.Pc(t).KnowsLock() ==>
      if s.Pc(t).InLockFor? then key in s'.locks && s'.Pc(t).lock == s'.locks[key]
      else s.Pc(t).KnowsLock() && s'.Pc(t).lock == s.Pc(t).lock)
  }

  /** A key lock is taken free, held until released, and released by its holder. */
  predicate OwnerMoves(s: State, t: nat, s': State)
    requires t < |s.calls| && t < |s'.calls|
  {
    if s.Pc(t).AwaitKey? then
      s'.Pc(t).HoldsKey() && s'.Pc(t).lock == s.Pc(t).lock &&
      s.Pc(t).lock !in s.owner && s'.owner == s.owner[s.Pc(t).lock := t]
    else if s.Pc(t).Releasing? then !s'.Pc(t).HoldsKey() && s'.owner == s.owner - {s.Pc(t).lock}
    else
      s'.owner == s.owner && s'.Pc(t).HoldsKey() == s.Pc(t).HoldsKey() &&
      (s.Pc(t).HoldsKey() ==> s'.Pc(t).lock == s.Pc(t).lock)
  }

  /** done grows by the key of a call that marks it; fn is entered only for a key that is not done, and
      a nil outcome comes from a done key or from marking it. */
  predicate DoneMoves(s: State, t: nat, s': State, choice: bool)
    requires t < |s.calls| && t < |s'.calls|
  {
    var pc, pc', key := s.Pc(t), s'.Pc(t), s.Key(t);
    s'.done == (if pc.Marking? then s.done + {key} else s.done) &&
    (pc'.Succeeded() <==> pc.AwaitMark? || (pc.InFn? && choice)) &&
    (pc'.Working() ==> pc.InFn? || pc.AwaitMark? || (pc.Reading? && key !in s.done)) &&
    (pc'.EndsWell() ==> pc.Marking? || pc.EndsWell() || (pc.Reading? && key in s.done))
  }

  lemma StepGuard(s: State, t: nat, choice: bool)
    requires Enabled(s, t) && Moves(s, t, Step(s, t, choice)) && Step(s, t, choice).Pc(t) == NextPc(s, t, choice)
    requires s.Pc(t).HoldsGuard() ==> s.guard == Some(t)
    ensures GuardMoves(s, t, Step(s, t, choice))
  {}

  lemma StepLocks(s: State, t: nat, choice: bool)
    requires Enabled(s, t) && Moves(s, t, Step(s, t, choice)) && Step(s, t, choice).Pc(t) == NextPc(s, t, choice)
    ensures LocksMove(s, t, Step(s, t, choice))
  {}

  lemma StepOwner(s: State, t: nat, choice: bool)
    requires Enabled(s, t) && Moves(s, t, Step(s, t, choice)) && Step(s, t, choice).Pc(t) == NextPc(s, t, choice)
    ensures OwnerMoves(s, t, Step(s, t, choice))
  {}

  lemma StepDone(s: State, t: nat, choice: bool)
    requires Enabled(s, t) && Moves(s, t, Step(s, t, choice)) && Step(s, t, choice).Pc(t) == NextPc(s, t, choice)
    ensures DoneMoves(s, t, Step(s, t, choice), choice)
  {}

  lemma GuardInvStep(s: State, t: nat, s': State)
    requires GuardInv(s) && Moves(s, t, s') && GuardMoves(s, t, s')
    ensures GuardInv(s')
  {
    forall u | 0 <= u < |s'.calls| && s'.Pc(u).HoldsGuard()
      ensures s'.guard == Some(u)
    {
      assert u == t || s.Pc(u).HoldsGuard();
    }
  }

  lemma LocksInvStep(s: State, t: nat, s': State)
    requires LocksInv(s) && Moves(s, t, s') && LocksMove(s, t, s')
    ensures LocksInv(s')
  {
    forall u | 0 <= u < |s'.calls| && s'.Pc(u).KnowsLock()
      ensures s'.Key(u) in s'.locks && s'.locks[s'.Key(u)] == s'.Pc(u).lock
    {
      assert u == t || s.Pc(u).KnowsLock();
    }
  }

  lemma OwnerInvStep(s: State, t: nat, s': State)
    requires OwnerInv(s) && Moves(s, t, s') && OwnerMoves(s, t, s')
    ensures OwnerInv(s')
  {
    forall u | 0 <= u < |s'.calls| && s'.Pc(u).HoldsKey()
      ensures s'.Pc(u).lock in s'.owner && s'.owner[s'.Pc(u).lock] == u
    {
      assert u == t || s.Pc(u).HoldsKey();
    }
  }

  lemma SharedInvStep(s: State, t: nat, choice: bool)
    requires SharedInv(s) && Enabled(s, t)
    ensures SharedInv(Step(s, t, choice))
  {
    var s' := Step(s, t, choice);
    OthersUntouched(s, t, choice);
    StepGuard(s, t, choice);
    StepLocks(s, t, choice);
    StepOwner(s, t, choice);
    GuardInvStep(s, t, s');
    LocksInvStep(s, t, s');
    OwnerInvStep(s, t, s');
  }

  // ----- the history -----

  predicate OkAt(log: seq<Event>, i: int, key: string) {
    0 <= i < |log| && log[i].FnReturned? && log[i].key == key && log[i].ok
  }

  /** fn has returned nil for the key at some point of the log. */
  ghost predicate Done(log: seq<Event>, key: string) {
    exists i :: OkAt(log, i, key)
  }

  /** At most one success per key, and every nil return of Do is preceded by one. */
  ghost predicate LogSafe(log: seq<Event>) {
    (forall i, j, key :: OkAt(log, i, key) && OkAt(log, j, key) ==> i == j) &&
    forall j :: 0 <= j < |log| && log[j].DoReturned? && log[j].outcome == Nil ==>
      exists i :: i < j && OkAt(log, i, log[j].key)
  }

  ghost predicate DoneInv(s: State) {
    (forall k :: k in s.done ==> Done(s.log, k)) &&
    forall k :: Done(s.log, k) ==>
      k in s.done || exists t :: 0 <= t < |s.calls| && s.Key(t) == k && s.Pc(t).Succeeded()
  }

  ghost predicate CallInv(s: State) {
    forall t :: 0 <= t < |s.calls| ==>
      (s.Pc(t).Working() ==> s.Key(t) !in s.done) &&
      (s.Pc(t).Succeeded() ==> Done(s.log, s.Key(t))) &&
      (s.Pc(t).EndsWell() ==> Done(s.log, s.Key(t)))
  }

  ghost predicate Inv(s: State) {
    SharedInv(s) && LogSafe(s.log) && DoneInv(s) && CallInv(s)
  }

  /** Appending any event but a success or a nil return keeps the log's meaning. */
  lemma QuietAppend(log: seq<Event>, e: Event)
    requires LogSafe(log)
    requires !(e.FnReturned? && e.ok)
    requires e.DoReturned? && e.outcome == Nil ==> Done(log, e.key)
    ensures LogSafe(log + [e])
    ensures forall k :: Done(log + [e], k) <==> Done(log, k)
  {
    var after := log + [e];
    assert forall i, k :: OkAt(after, i, k) <==> OkAt(log, i, k);
    forall k | Done(log, k) ensures Done(after, k) {
      var i :| OkAt(log, i, k);
      assert OkAt(after, i, k);
    }
    forall j | 0 <= j < |after| && after[j].DoReturned? && after[j].outcome == Nil
      ensures exists i :: i < j && OkAt(after, i, after[j].key)
    {
      if j < |log| {
        var i :| i < j && OkAt(log, i, log[j].key);
        assert OkAt(after, i, after[j].key);
      } else {
        var i :| OkAt(log, i, e.key);
        assert OkAt(after, i, after[j].key);
      }
    }
  }

  /** Appending the first success of a key adds that key alone. */
  lemma SuccessAppend(log: seq<Event>, e: Event)
    requires LogSafe(log) && e.FnReturned? && e.ok && !Done(log, e.key)
    ensures LogSafe(log + [e])
    ensures forall k :: Done(log + [e], k) <==> Done(log, k) || k == e.key
  {
    var after := log + [e];
    assert forall i, k :: OkAt(after, i, k) <==> OkAt(log, i, k) || (i == |log| && k == e.key);
    assert OkAt(after, |log|, e.key);
    forall k | Done(log, k) ensures Done(after, k) {
      var i :| OkAt(log, i, k);
      assert OkAt(after, i, k);
    }
    forall j | 0 <= j < |after| && after[j].DoReturned? && after[j].outcome == Nil
      ensures exists i :: i < j && OkAt(after, i, after[j].key)
    {
      var i :| i < j && OkAt(log, i, log[j].key);
      assert OkAt(after, i, after[j].key);
    }
  }

  /** While fn runs for a key, no success of that key has been seen. */
  lemma NoSuccessBeforeFn(s: State, t: nat)
    requires Inv(s) && t < |s.calls| && s.Pc(t).InFn?
    ensures !Done(s.log, s.Key(t))
  {
    if Done(s.log, s.Key(t)) {
      var u :| 0 <= u < |s.calls| && s.Key(u) == s.Key(t) && s.Pc(u).Succeeded();
      OneHolderPerKey(s, t, u);
    }
  }

  lemma InvStep(s: State, t: nat, choice: bool)
    requires Inv(s) && Enabled(s, t)
    ensures Inv(Step(s, t, choice))
  {
    var s' := Step(s, t, choice);
    SharedInvStep(s, t, choice);
    assert forall u :: 0 <= u < |s.calls| && u != t ==> s'.calls[u] == s.calls[u];
    if s.Pc(t).InFn? && choice {
      NoSuccessBeforeFn(s, t);
      SuccessAppend(s.log, FnReturned(t, s.Key(t), true));
      assert s'.Pc(t).Succeeded();
    } else if s'.log != s.log {
      QuietAppend(s.log, s'.log[|s.log|]);
    }
    OthersUntouched(s, t, choice);
    StepDone(s, t, choice);
    DoneInvStep(s, t, s', choice);
    CallInvStep(s, t, s', choice);
  }

  lemma DoneInvStep(s: State, t: nat, s': State, choice: bool)
    requires Inv(s) && Moves(s, t, s') && DoneMoves(s, t, s', choice)
    requires forall k :: Done(s'.log, k) <==> Done(s.log, k) || (s.Pc(t).InFn? && choice && k == s.Key(t))
    ensures DoneInv(s')
  {
    forall k | Done(s'.log, k)
      ensures k in s'.done || exists u :: 0 <= u < |s'.calls| && s'.Key(u) == k && s'.Pc(u).Succeeded()
    {
      if s.Pc(t).InFn? && choice && k == s.Key(t) {
        assert s'.Pc(t).Succeeded();
      } else if k !in s.done {
        var u :| 0 <= u < |s.calls| && s.Key(u) == k && s.Pc(u).Succeeded();
        assert s'.Key(u) == k && (s'.Pc(u).Succeeded() || k in s'.done);
      }
    }
  }

  lemma CallInvStep(s: State, t: nat, s': State, choice: bool)
    requires Inv(s) && Moves(s, t, s') && DoneMoves(s, t, s', choice)
    requires forall k :: Done(s'.log, k) <==> Done(s.log, k) || (s.Pc(t).InFn? && choice && k == s.Key(t))
    ensures CallInv(s')
  {
    forall u | 0 <= u < |s'.calls| && s'.Pc(u).Working()
      ensures s'.Key(u) !in s'.done
    {
      assert u == t || s.Pc(u).Working();
      if s.Pc(t).Marking? && u != t && s.Key(u) == s.Key(t) {
        OneHolderPerKey(s, t, u);
      }
    }
  }

  // ----- safety over whole runs -----

  lemma InitInv(keys: seq<string>)
    ensures Inv(Init(keys))
  {}

  lemma {:induction false} RunInv(ss: seq<State>, n: nat)
    requires Run(ss) && n < |ss|
    ensures forall m: nat :: m <= n ==> Inv(ss[m])
  {
    if n == 0 {
      var keys :| ss[0] == Init(keys);
      InitInv(keys);
    } else {
      RunInv(ss, n - 1);
      assert Next(ss[n - 1], ss[n - 1 + 1]);
      var t, choice :| Enabled(ss[n - 1], t) && ss[n] == Step(ss[n - 1], t, choice);
      InvStep(ss[n - 1], t, choice);
    }
  }

  predicate InsideFn(s: State, t: nat, key: string) {
    t < |s.calls| && s.Pc(t).InFn? && s.Key(t) == key
  }

  ghost predicate MutualExclusion(s: State) {
    forall t, u, key :: InsideFn(s, t, key) && InsideFn(s, u, key) ==> t == u
  }

  /** In every interleaving of any number of calls: at most one call is inside fn for a key; fn
      returns nil at most once per key; and Do returns nil only after fn has succeeded. */
  lemma {:induction false} CoordinatorSafety(ss: seq<State>, n: nat)
    requires Run(ss) && n < |ss|
    ensures MutualExclusion(ss[n])
    ensures forall i, j, key :: OkAt(ss[n].log, i, key) && OkAt(ss[n].log, j, key) ==> i == j
    ensures forall j :: 0 <= j < |ss[n].log| && ss[n].log[j].DoReturned? && ss[n].log[j].outcome == Nil ==>
      exists i :: i < j && OkAt(ss[n].log, i, ss[n].log[j].key)
    ensures forall key :: key in ss[n].done ==> Done(ss[n].log, key)
  {
    RunInv(ss, n);
    forall t, u, key | InsideFn(ss[n], t, key) && InsideFn(ss[n], u, key)
      ensures t == u
    {
      OneHolderPerKey(ss[n], t, u);
    }
  }

  /** A failed fn leaves its key undone; its own call reports the failure, and no other call, lock or
      key notices. */
  lemma FailedFnLeavesKeyUndone(s: State, t: nat)
    requires Inv(s) && t < |s.calls| && s.Pc(t).InFn?
    ensures var s' := Step(s, t, false);
      s'.done == s.done && s.Key(t) !in s'.done && !Done(s'.log, s.Key(t)) &&
      s'.Pc(t) == Releasing(s.Pc(t).lock, FnFailed) &&
      s'.guard == s.guard && s'.locks == s.locks && s'.owner == s.owner && |s'.calls| == |s.calls| &&
      (forall u :: 0 <= u < |s.calls| && u != t ==> s'.calls[u] == s.calls[u]) &&
      forall key :: Done(s'.log, key) <==> Done(s.log, key)
  {
    NoSuccessBeforeFn(s, t);
    InvStep(s, t, false);
    QuietAppend(s.log, FnReturned(t, s.Key(t), false));
  }

  // ----- progress -----

  /** No reachable state is a deadlock: while some call has not returned, some call can step. */
  lemma NoDeadlock(s: State, t: nat) returns (u: nat)
    requires SharedInv(s) && t < |s.calls| && !s.Pc(t).Returned?
    ensures Enabled(s, u)
  {
    if s.guard.Some? {
      u := s.guard.value;
    } else if s.Pc(t).AwaitKey? && s.Pc(t).lock in s.owner {
      u := s.owner[s.Pc(t).lock];
    } else {
      u := t;
    }
  }

  /** The steps the calls still have to take, an upper bound. */
  function Work(calls: seq<Call>): nat {
    if calls == [] then 0 else calls[0].pc.Remaining() + Work(calls[1..])
  }

  lemma {:induction false} WorkUpdate(calls: seq<Call>, t: nat, c: Call)
    requires t < |calls|
    ensures Work(calls[t := c]) == Work(calls) - calls[t].pc.Remaining() + c.pc.Remaining()
  {
    if t > 0 {
      WorkUpdate(calls[1..], t - 1, c);
      assert calls[t := c][1..] == calls[1..][t - 1 := c];
    } else {
      assert calls[t := c][1..] == calls[1..];
    }
  }

  /** The work left strictly decreases, whoever steps and however fn and the context behave. */
  lemma StepDecreasesWork(s: State, t: nat, choice: bool)
    requires Enabled(s, t)
    ensures Work(Step(s, t, choice).calls) < Work(s.calls)
  {
    var calls := Step(s, t, choice).calls;
    OthersUntouched(s, t, choice);
    RemainingDrops(s, t, choice);
    WorkUpdate(s.calls, t, calls[t]);
  }

  lemma RemainingDrops(s: State, t: nat, choice: bool)
    requires Enabled(s, t)
    ensures NextPc(s, t, choice).Remaining() < s.Pc(t).Remaining()
  {}

  lemma {:induction false} InitialWork(keys: seq<string>)
    ensures Work(Init(keys).calls) == 10 * |keys|
  {
    if keys != [] {
      InitialWork(keys[1..]);
      assert Init(keys).calls[1..] == Init(keys[1..]).calls;
    }
  }

  lemma {:induction false} RunWork(ss: seq<State>, n: nat)
    requires Run(ss) && n < |ss|
    ensures |ss[n].calls| == |ss[0].calls|
    ensures n + Work(ss[n].calls) <= Work(ss[0].calls)
  {
    if n > 0 {
      RunWork(ss, n - 1);
      assert Next(ss[n - 1], ss[n - 1 + 1]);
      var t, choice :| Enabled(ss[n - 1], t) && ss[n] == Step(ss[n - 1], t, choice);
      StepDecreasesWork(ss[n - 1], t, choice);
    }
  }

  ghost predicate Stuck(s: State) {
    forall t :: !Enabled(s, t)
  }

  predicate AllReturned(s: State) {
    forall t :: 0 <= t < |s.calls| ==> s.Pc(t).Returned?
  }

  /** Termination with terminating fn: N calls take at most 10 N steps in any interleaving, and a run
      that cannot be continued is one in which every call has returned. */
  lemma {:induction false} EveryCallReturns(ss: seq<State>)
    requires Run(ss)
    ensures |ss| <= 10 * |ss[0].calls| + 1
    ensures |ss[|ss| - 1].calls| == |ss[0].calls|
    ensures Stuck(ss[|ss| - 1]) <==> AllReturned(ss[|ss| - 1])
  {
    var last := ss[|ss| - 1];
    RunWork(ss, |ss| - 1);
    RunInv(ss, |ss| - 1);
    var keys :| ss[0] == Init(keys);
    InitialWork(keys);
    if Stuck(last) {
      forall t | 0 <= t < |last.calls|
        ensures last.Pc(t).Returned?
      {
        if !last.Pc(t).Returned? {
          var u := NoDeadlock(last, t);
        }
      }
    }
  }

  // ----- the object -----

  /** A run goes on by any enabled step. */
  lemma ExtendRun(ss: seq<State>, t: nat, choice: bool)
    requires Run(ss) && Enabled(ss[|ss| - 1], t)
    ensures Run(ss + [Step(ss[|ss| - 1], t, choice)])
  {
    var more := ss + [Step(ss[|ss| - 1], t, choice)];
    assert more[0] == ss[0];
    forall i | 0 <= i < |more| - 1 ensures Next(more[i], more[i + 1]) {
      if i < |ss| - 1 {
        assert more[i] == ss[i] && more[i + 1] == ss[i + 1];
      }
    }
  }

  /** The coordinator as the program holds it: fields updated in place, one method per critical
      section. Its history, the states it has been in, is a run of the machine: each method performs
      exactly the corresponding step, so whatever holds of all runs holds of the object. */
  class WorkloadCoordinator {
    var calls: seq<Call>
    var guard: Option<nat>
    var locks: map<string, nat>
    var owner: map<nat, nat>
    var done: set<string>
    ghost var log: seq<Event>
    ghost var history: seq<State>

    constructor (keys: seq<string>)
      ensures Valid() && Snapshot() == Init(keys)
    {
      calls := seq(|keys|, i requires 0 <= i < |keys| => Call(keys[i], Entering));
      guard, locks, owner, done, log := None, map[], map[], {}, [];
      history := [Init(keys)];
    }

    ghost function Snapshot(): State
      reads this
    {
      State(calls, guard, locks, owner, done, log)
    }

    ghost predicate Valid()
      reads this
    {
      Run(history) && history[|history| - 1] == Snapshot()
    }

    /** The object has taken one step of the machine since it was in state `before`. */
    ghost predicate Took(before: State, t: nat, choice: bool)
      reads this
    {
      Valid() && Enabled(before, t) && Snapshot() == Step(before, t, choice)
    }

    method LockGuard(t: nat)
      requires Valid() && guard.None?
      requires t < |calls| && (calls[t].pc.Entering? || calls[t].pc.AwaitRead? || calls[t].pc.AwaitMark?)
      modifies this
      ensures Took(old(Snapshot()), t, true)
    {
      ExtendRun(history, t, true);
      guard := Some(t);
      match calls[t].pc {
        case Entering => calls := calls[t := calls[t].(pc := InLockFor)];
        case AwaitRead(lock) => calls := calls[t := calls[t].(pc := Reading(lock))];
        case AwaitMark(lock) => calls := calls[t := calls[t].(pc := Marking(lock))];
      }
      history := history + [Snapshot()];
    }

    /** Finds the mutex of the call's key, creating it on first use, and unlocks the guard. */
    method LockFor(t: nat)
      requires Valid() && t < |calls| && calls[t].pc.InLockFor?
      modifies this
      ensures Took(old(Snapshot()), t, true)
    {
      ExtendRun(history, t, true);
      var key := calls[t].key;
      if key !in locks {
        locks := locks[key := |locks|];
      }
      guard := None;
      calls := calls[t := calls[t].(pc := AwaitKey(locks[key]))];
      history := history + [Snapshot()];
    }

    method LockKey(t: nat)
      requires Valid() && t < |calls| && calls[t].pc.AwaitKey? && calls[t].pc.lock !in owner
      modifies this
      ensures Took(old(Snapshot()), t, true)
    {
      ExtendRun(history, t, true);
      var lock := calls[t].pc.lock;
      owner := owner[lock := t];
      calls := calls[t := calls[t].(pc := Checking(lock))];
      history := history + [Snapshot()];
    }

    method CheckContext(t: nat, live: bool)
      requires Valid() && t < |calls| && calls[t].pc.Checking?
      modifies this
      ensures Took(old(Snapshot()), t, live)
    {
      ExtendRun(history, t, live);
      var lock := calls[t].pc.lock;
      calls := calls[t := calls[t].(pc := if live then AwaitRead(lock) else Releasing(lock, Cancelled))];
      history := history + [Snapshot()];
    }

    /** Reads done under the guard, unlocks it, and either skips fn or enters it. */
    method ReadDone(t: nat)
      requires Valid() && t < |calls| && calls[t].pc.Reading?
      modifies this
      ensures Took(old(Snapshot()), t, true)
    {
      ExtendRun(history, t, true);
      var key, lock := calls[t].key, calls[t].pc.lock;
      guard := None;
      if key in done {
        calls := calls[t := calls[t].(pc := Releasing(lock, Nil))];
      } else {
        calls := calls[t := calls[t].(pc := InFn(lock))];
        log := log + [FnStarted(t, key)];
      }
      history := history + [Snapshot()];
    }

    method ReturnFromFn(t: nat, ok: bool)
      requires Valid() && t < |calls| && calls[t].pc.InFn?
      modifies this
      ensures Took(old(Snapshot()), t, ok)
    {
      ExtendRun(history, t, ok);
      var key, lock := calls[t].key, calls[t].pc.lock;
      calls := calls[t := calls[t].(pc := if ok then AwaitMark(lock) else Releasing(lock, FnFailed))];
      log := log + [FnReturned(t, key, ok)];
      history := history + [Snapshot()];
    }

    method MarkDone(t: nat)
      requires Valid() && t < |calls| && calls[t].pc.Marking?
      modifies this
      ensures Took(old(Snapshot()), t, true)
    {
      ExtendRun(history, t, true);
      done := done + {calls[t].key};
      guard := None;
      calls := calls[t := calls[t].(pc := Releasing(calls[t].pc.lock, Nil))];
      history := history + [Snapshot()];
    }

    method UnlockKey(t: nat)
      requires Valid() && t < |calls| && calls[t].pc.Releasing?
      modifies this
      ensures Took(old(Snapshot()), t, true)
    {
      ExtendRun(history, t, true);
      var key, lock, outcome := calls[t].key, calls[t].pc.lock, calls[t].pc.outcome;
      owner := owner - {lock};
      calls := calls[t := calls[t].(pc := Returned(outcome))];
      log := log + [DoReturned(t, key, outcome)];
      history := history + [Snapshot()];
    }

    /** The first part of Do, uncontended: the guard, the key's mutex, and its lock. */
    method Acquire(t: nat)
      requires Valid() && t < |calls| && calls[t].pc.Entering? && guard.None?
      requires if calls[t].key in locks then locks[calls[t].key] !in owner else |locks| !in owner
      modifies this
      ensures Valid() && guard.None? && done == old(done)
      ensures |calls| == |old(calls)| && calls == old(calls)[t := Call(old(calls[t].key), calls[t].pc)]
      ensures calls[t].pc.Checking? && calls[t].pc.lock !in old(owner) && owner == old(owner)[calls[t].pc.lock := t]
    {
      LockGuard(t);
      LockFor(t);
      LockKey(t);
    }

    /** Under the key lock: the context first, then the done set. */
    method Consult(t: nat, live: bool)
      requires Valid() && t < |calls| && calls[t].pc.Checking? && guard.None?
      modifies this
      ensures Valid() && guard.None? && owner == old(owner) && done == old(done)
      ensures |calls| == |old(calls)| && calls == old(calls)[t := Call(old(calls[t].key), calls[t].pc)]
      ensures var lock := old(calls[t].pc.lock);
        calls[t].pc ==
          if !live then Releasing(lock, Cancelled)
          else if old(calls[t].key) in done then Releasing(lock, Nil)
          else InFn(lock)
    {
      CheckContext(t, live);
      if live {
        LockGuard(t);
        ReadDone(t);
      }
    }

    /** The deferred unlock. */
    method Release(t: nat) returns (outcome: Outcome)
      requires Valid() && t < |calls| && calls[t].pc.Releasing?
      modifies this
      ensures Valid() && guard == old(guard) && done == old(done) && owner == old(owner) - {old(calls[t].pc.lock)}
      ensures outcome == old(calls[t].pc.outcome)
      ensures calls == old(calls)[t := Call(old(calls[t].key), Returned(outcome))]
    {
      outcome := calls[t].pc.outcome;
      UnlockKey(t);
    }

    /** The last part, once fn runs: it returns, and its success is marked. */
    method Finish(t: nat, ok: bool)
      requires Valid() && t < |calls| && calls[t].pc.InFn? && guard.None?
      modifies this
      ensures Valid() && guard.None? && owner == old(owner)
      ensures done == old(done) + if ok then {old(calls[t].key)} else {}
      ensures |calls| == |old(calls)| && calls == old(calls)[t :=
        Call(old(calls[t].key), Releasing(old(calls[t].pc.lock), if ok then Nil else FnFailed))]
    {
      ReturnFromFn(t, ok);
      if ok {
        LockGuard(t);
        MarkDone(t);
      }
    }

    /** A whole call that meets no other: nothing holds the guard or the lock of its key. It runs fn
        exactly if its context is live and the key is not done, and leaves every lock free again. */
    method Do(t: nat, live: bool, ok: bool) returns (outcome: Outcome, ran: bool)
      requires Valid() && t < |calls| && calls[t].pc.Entering?
      requires guard.None? && (calls[t].key in locks ==> locks[calls[t].key] !in owner)
      modifies this
      ensures Valid() && guard.None? && owner == old(owner)
      ensures calls == old(calls)[t := Call(old(calls[t].key), Returned(outcome))]
      ensures ran <==> live && old(calls[t].key !in done)
      ensures outcome == if !live then Cancelled else if ran && !ok then FnFailed else Nil
      ensures done == old(done) + if ran && ok then {old(calls[t].key)} else {}
    {
      ran := false;
      FreshLockIsFree(history, calls[t].key);
      Acquire(t);
      Consult(t, live);
      if calls[t].pc.InFn? {
        ran := true;
        Finish(t, ok);
      }
      outcome := Release(t);
    }
  }

  /** A key without a mutex gets one that nobody holds. */
  lemma FreshLockIsFree(ss: seq<State>, key: string)
    requires Run(ss)
    ensures key !in ss[|ss| - 1].locks ==> |ss[|ss| - 1].locks| !in ss[|ss| - 1].owner
  {
    var s := ss[|ss| - 1];
    RunInv(ss, |ss| - 1);
    assert forall l :: l in s.owner ==> s.locks[s.Key(s.owner[l])] == l;
  }

  /** What holds of all runs, said of the object. */
  lemma ObjectIsSafe(c: WorkloadCoordinator)
    requires c.Valid()
    ensures MutualExclusion(c.Snapshot())
    ensures forall i, j, key :: OkAt(c.log, i, key) && OkAt(c.log, j, key) ==> i == j
    ensures forall key :: key in c.done ==> Done(c.log, key)
    ensures (exists t :: 0 <= t < |c.calls| && !c.calls[t].pc.Returned?) ==> exists v :: Enabled(c.Snapshot(), v)
  {
    var last := |c.history| - 1;
    CoordinatorSafety(c.history, last);
    RunInv(c.history, last);
    if t :| 0 <= t < |c.calls| && !c.calls[t].pc.Returned? {
      var v := NoDeadlock(c.Snapshot(), t);
    }
  }
}
