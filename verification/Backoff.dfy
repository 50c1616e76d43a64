/** Retrying an eviction that a disruption budget blocks: doubling intervals in 64-bit nanoseconds,
    capped, under a deadline. */
module Backoff {
  import opened Kube

  const CAP: int := 60_000_000_000
  const MAX_INT64: int := 0x7FFF_FFFF_FFFF_FFFF
  const DEFAULT_INTERVAL: int := 5_000_000_000
  const DEFAULT_TIMEOUT: int := 300_000_000_000

  /** Two's-complement wrap-around of a doubled 64-bit value. */
  function Wrap(x: int): int {
    if x > MAX_INT64 then x - 0x1_0000_0000_0000_0000
    else if x < -MAX_INT64 - 1 then x + 0x1_0000_0000_0000_0000
    else x
  }

  function Grow(interval: int): int {
    var doubled := Wrap(interval * 2);
    if doubled > CAP then CAP else doubled
  }

  /** The wait after attempt `k`, as the loop computes it. */
  function WaitAfter(b: int, k: nat): int
    requires k >= 1
  {
    if k == 1 then b else Grow(WaitAfter(b, k - 1))
  }

  function Pow2(k: nat): nat {
    if k == 0 then 1 else 2 * Pow2(k - 1)
  }

  function Min(a: int, b: int): int {
    if a <= b then a else b
  }

  /** The documented schedule: base, then exponential up to the cap. */
  function Schedule(b: int, k: nat): int
    requires k >= 1
  {
    if k == 1 then b else Min(b * Pow2(k - 1), CAP)
  }

  lemma {:induction false} Pow2Positive(k: nat)
    ensures Pow2(k) >= 1
  {
    if k > 0 {
      Pow2Positive(k - 1);
    }
  }

  lemma Doubled(b: int, k: nat)
    requires k > 0
    ensures b * Pow2(k) == 2 * (b * Pow2(k - 1))
  {
    DoubledProduct(b, Pow2(k - 1));
  }

  lemma DoubledProduct(b: int, p: int)
    ensures b * (2 * p) == 2 * (b * p)
  {}

  lemma AtLeastBase(b: int, k: nat)
    requires b > 0
    ensures b * Pow2(k) >= b
  {
    Pow2Positive(k);
    Product(b, Pow2(k));
  }

  lemma {:induction false} FollowsSchedule(b: int, k: nat)
    requires 0 < b <= MAX_INT64 / 2 && k >= 1
    ensures WaitAfter(b, k) == Schedule(b, k)
    ensures 0 < WaitAfter(b, k) <= MAX_INT64 / 2
  {
    if k > 2 {
      FollowsSchedule(b, k - 1);
      Doubled(b, k - 1);
      AtLeastBase(b, k - 2);
      DoubledWait(WaitAfter(b, k - 1), b * Pow2(k - 2));
    } else if k == 2 {
      assert Pow2(1) == 2 && WaitAfter(b, 1) == b;
    }
  }

  /** Doubling a capped value and capping again is doubling the value and capping. */
  lemma DoubledWait(wait: int, x: int)
    requires x > 0 && wait == Min(x, CAP)
    ensures Grow(wait) == Min(2 * x, CAP) && 0 < Grow(wait) <= CAP
  {}

  lemma Product(b: int, n: int)
    requires b > 0 && n >= 1
    ensures b * n >= b
  {}

  /** The waits follow the documented schedule exactly when doubling the base does not overflow. */
  lemma {:induction false} ScheduleExactlyWithoutOverflow(b: int)
    requires 0 < b <= MAX_INT64
    ensures (forall k: nat :: k >= 1 ==> WaitAfter(b, k) == Schedule(b, k)) <==> b <= 0x3FFF_FFFF_FFFF_FFFF
    ensures forall k: nat | k >= 1 ::
      Schedule(b, k) == if k == 1 || b * Pow2(k - 1) <= 60_000_000_000 then b * Pow2(k - 1) else 60_000_000_000
  {
    assert b * Pow2(0) == b;
    if b <= MAX_INT64 / 2 {
      forall k: nat | k >= 1 ensures WaitAfter(b, k) == Schedule(b, k) {
        FollowsSchedule(b, k);
      }
    } else {
      assert WaitAfter(b, 2) == Grow(b) && Pow2(1) == 2;
      assert WaitAfter(b, 2) != Schedule(b, 2);
    }
  }

  /** A wait that is not positive passes at once. */
  function Pause(b: int, k: nat): nat
    requires k >= 1
  {
    if WaitAfter(b, k) > 0 then WaitAfter(b, k) else 0
  }

  /** The total of the first `m` waits. */
  function Total(b: int, m: nat): nat {
    if m == 0 then 0 else Total(b, m - 1) + Pause(b, m)
  }

  /** While the schedule still doubles, `m` waits take base times 2^m - 1. */
  lemma {:induction false} TotalWhileDoubling(b: int, m: nat)
    requires 0 < b <= CAP && (m > 0 ==> b * Pow2(m - 1) <= CAP)
    ensures Total(b, m) == b * (Pow2(m) - 1)
  {
    if m > 0 {
      if m > 1 {
        HalfOf(b, m - 1);
      }
      TotalWhileDoubling(b, m - 1);
      FollowsSchedule(b, m);
      assert Pause(b, m) == b * Pow2(m - 1);
      DoublingSum(b, Pow2(m - 1));
    }
  }

  lemma HalfOf(b: int, k: nat)
    requires b > 0 && k > 0
    ensures b * Pow2(k - 1) <= b * Pow2(k)
  {
    AtLeastBase(b, k - 1);
    Doubled(b, k);
  }

  lemma DoublingSum(b: int, p: int)
    ensures b * (p - 1) + b * p == b * (2 * p - 1)
  {}

  /** From the attempt `c` on at which the cap is reached, every wait adds exactly the cap. */
  lemma {:induction false} TotalOnceCapped(b: int, c: nat, m: nat)
    requires 0 < b <= MAX_INT64 / 2 && 1 <= c <= m && b * Pow2(c) >= CAP
    ensures Total(b, m) == Total(b, c) + (m - c) * CAP
  {
    if m > c {
      TotalOnceCapped(b, c, m - 1);
      FollowsSchedule(b, m);
      CappedFrom(b, c, m - 1);
      assert (m - c) * CAP == (m - 1 - c) * CAP + CAP;
    }
  }

  lemma {:induction false} CappedFrom(b: int, c: nat, k: nat)
    requires b > 0 && c <= k && b * Pow2(c) >= CAP
    ensures b * Pow2(k) >= CAP
  {
    if k > c {
      CappedFrom(b, c, k - 1);
      Doubled(b, k);
    }
  }

  /** No wait is shorter than the base or the cap, so `m` waits take at least `m` times the lesser. */
  lemma {:induction false} TotalAtLeast(b: int, m: nat)
    requires 0 < b <= MAX_INT64 / 2
    ensures Total(b, m) >= m * Min(b, CAP)
  {
    if m > 0 {
      TotalAtLeast(b, m - 1);
      FollowsSchedule(b, m);
      AtLeastBase(b, m - 1);
      assert m * Min(b, CAP) == (m - 1) * Min(b, CAP) + Min(b, CAP);
    }
  }

  // ----- the retry loop -----

  /** The environment of one attempt: how long the call took and what it answered; and, when the
      attempt was blocked before the deadline, whether the timer fired before the context ended and
      how late the loop resumed. */
  datatype Attempt = Attempt(duration: nat, answer: Option<ApiError>, timerFirst: bool, late: nat)

  datatype Outcome = Evicted | Gone | Rejected(error: ApiError) | TimedOut(attempts: nat) | Unfinished

  predicate Blocked(a: Attempt) {
    a.answer.Some? && (a.answer.value.TooManyRequests? || a.answer.value.ServiceUnavailable?)
  }

  function OrDefault(configured: int, default: int): int {
    if configured > 0 then configured else default
  }

  /** The last attempt decides, and the outcome is what it answered. */
  predicate Decided(r: Outcome, env: seq<Attempt>, n: nat)
    requires n <= |env|
  {
    match r
    case Unfinished => n == |env|
    case Evicted => n > 0 && env[n - 1].answer == None
    case Gone => n > 0 && env[n - 1].answer == Some(NotFound)
    case Rejected(e) => n > 0 && env[n - 1].answer == Some(e) && !Blocked(env[n - 1]) && e != NotFound
    case TimedOut(attempts) => n > 0 && attempts == n && Blocked(env[n - 1])
  }

  /** Every attempt starts when the one before it has been answered and its wait has passed. */
  predicate Timeline(b: int, env: seq<Attempt>, starts: seq<int>)
    requires |starts| <= |env|
  {
    (|starts| > 0 ==> starts[0] == 0) &&
    forall k: nat :: k < |starts| - 1 ==> starts[k + 1] == starts[k] + env[k].duration + Pause(b, k + 1) + env[k].late
  }

  /** The attempt is the last: it was answered for good, the context ended before the wait did, or the
      deadline passed during the call. */
  predicate Stops(b: int, timeout: int, a: Attempt, k: nat, start: int) {
    !Blocked(a) || !a.timerFirst || (start + a.duration >= timeout && Pause(b, k + 1) > 0)
  }

  predicate GoesOn(b: int, timeout: int, env: seq<Attempt>, starts: seq<int>, n: int)
    requires n <= |starts| <= |env|
  {
    forall k: nat {:trigger Stops(b, timeout, env[k], k, starts[k])} ::
      k < n ==> !Stops(b, timeout, env[k], k, starts[k])
  }

  /** One eviction from its first attempt to its outcome: `starts` are the attempts' start times. */
  predicate Attempted(b: int, timeout: int, env: seq<Attempt>, r: Outcome, starts: seq<int>) {
    |starts| <= |env| && Timeline(b, env, starts) && Decided(r, env, |starts|) &&
    GoesOn(b, timeout, env, starts, |starts| - 1) &&
    if r.Unfinished? then GoesOn(b, timeout, env, starts, |starts|)
    else Stops(b, timeout, env[|starts| - 1], |starts| - 1, starts[|starts| - 1])
  }

  lemma {:induction false} TimelinePrefix(b: int, env: seq<Attempt>, s: seq<int>, s': seq<int>, n: nat)
    requires |s| <= |env| && |s'| <= |env| && Timeline(b, env, s) && Timeline(b, env, s') && n <= |s| && n <= |s'|
    ensures s[..n] == s'[..n]
  {
    if n > 1 {
      TimelinePrefix(b, env, s, s', n - 1);
      assert s[n - 2] == s[..n - 1][n - 2] == s'[..n - 1][n - 2] == s'[n - 2];
      assert s[(n - 2) + 1] == s'[(n - 2) + 1];
      assert s[..n] == s[..n - 1] + [s[n - 1]] && s'[..n] == s'[..n - 1] + [s'[n - 1]];
    } else if n == 1 {
      assert s[..1] == [s[0]] && s'[..1] == [s'[0]];
    }
  }

  /** The environment determines the outcome, the number of attempts and when each is made. */
  lemma {:induction false} AttemptsDetermined(b: int, timeout: int, env: seq<Attempt>,
                                              r: Outcome, s: seq<int>, r': Outcome, s': seq<int>)
    requires Attempted(b, timeout, env, r, s) && Attempted(b, timeout, env, r', s')
    ensures r == r' && s == s'
  {
    if |s| < |s'| {
      NotLonger(b, timeout, env, r, s, r', s');
    } else if |s'| < |s| {
      NotLonger(b, timeout, env, r', s', r, s);
    } else {
      TimelinePrefix(b, env, s, s', |s|);
      assert s == s[..|s|] && s' == s'[..|s|];
    }
  }

  lemma NotLonger(b: int, timeout: int, env: seq<Attempt>, r: Outcome, s: seq<int>, r': Outcome, s': seq<int>)
    requires Attempted(b, timeout, env, r, s) && Attempted(b, timeout, env, r', s')
    ensures |s| >= |s'|
  {
    if !r.Unfinished? && |s| < |s'| {
      TimelinePrefix(b, env, s, s', |s|);
      var k: nat := |s| - 1;
      assert s[k] == s[..|s|][k] && s'[k] == s'[..|s|][k];
      WentOn(b, timeout, env, s', k);
    }
  }

  lemma WentOn(b: int, timeout: int, env: seq<Attempt>, starts: seq<int>, k: nat)
    requires k < |starts| - 1 < |env| && GoesOn(b, timeout, env, starts, |starts| - 1)
    ensures !Stops(b, timeout, env[k], k, starts[k])
  {}

  /** Every attempt starts after the waits that precede it. */
  lemma {:induction false} SpacedOut(b: int, env: seq<Attempt>, starts: seq<int>, k: nat)
    requires |starts| <= |env| && Timeline(b, env, starts) && k < |starts|
    ensures starts[k] >= Total(b, k)
  {
    if k > 0 {
      SpacedOut(b, env, starts, k - 1);
      assert starts[(k - 1) + 1] == starts[k - 1] + env[k - 1].duration + Pause(b, (k - 1) + 1) + env[k - 1].late;
    }
  }

  /** An attempt begun before the deadline bounds the waits before it, hence how many there can be. */
  lemma {:induction false} AttemptsBounded(b: int, timeout: int, env: seq<Attempt>, starts: seq<int>, m: nat)
    requires 0 < b <= MAX_INT64 / 2 && |starts| <= |env| && Timeline(b, env, starts)
    requires m < |starts| && starts[m] < timeout
    ensures Total(b, m) < timeout
    ensures m * Min(b, CAP) < timeout
  {
    SpacedOut(b, env, starts, m);
    TotalAtLeast(b, m);
  }

  /** The wait that first meets the cap is the one after attempt `c + 1`. */
  predicate CappedFirst(b: int, c: nat) {
    b * Pow2(c) >= CAP && (c > 0 ==> b * Pow2(c - 1) < CAP)
  }

  /** The first `m` waits in closed form: a geometric sum up to the cap, and 60 seconds each from there;
      a base above the cap is waited for once. */
  function ClosedTotal(b: int, c: nat, m: nat): int {
    if m <= c then b * (Pow2(m) - 1)
    else if c == 0 then b + (m - 1) * CAP
    else b * (Pow2(c) - 1) + (m - c) * CAP
  }

  lemma {:induction false} TotalClosed(b: int, c: nat, m: nat)
    requires 0 < b <= MAX_INT64 / 2 && CappedFirst(b, c)
    ensures Total(b, m) == ClosedTotal(b, c, m)
  {
    if 0 < m <= c {
      StillDoubling(b, c, m - 1);
      AtLeastBase(b, m - 1);
      TotalWhileDoubling(b, m);
    } else if m == 0 {
      assert Pow2(0) - 1 == 0;
    } else if c == 0 {
      TotalAboveCap(b, m);
    } else {
      TotalClosed(b, c, c);
      TotalOnceCapped(b, c, m);
    }
  }

  lemma {:induction false} TotalAboveCap(b: int, m: nat)
    requires CAP <= b <= MAX_INT64 / 2 && m >= 1
    ensures Total(b, m) == b + (m - 1) * CAP
  {
    AtLeastBase(b, 1);
    TotalOnceCapped(b, 1, m);
    assert Total(b, 0) == 0 && Pause(b, 1) == b;
  }

  lemma {:induction false} StillDoubling(b: int, c: nat, k: nat)
    requires b > 0 && k < c && CappedFirst(b, c)
    ensures b * Pow2(k) < CAP
  {
    if b * Pow2(k) >= CAP {
      CappedFrom(b, k, c - 1);
    }
  }

  /** The same bound, explicit: the number of attempts begun before the deadline is logarithmic in the
      cap and then linear in the timeout, whatever the base. */
  lemma {:induction false} AttemptsBoundedByCap(
      b: int, timeout: int, env: seq<Attempt>, starts: seq<int>, m: nat, c: nat)
    requires 0 < b <= MAX_INT64 / 2 && |starts| <= |env| && Timeline(b, env, starts)
    requires m < |starts| && starts[m] < timeout && CappedFirst(b, c)
    ensures ClosedTotal(b, c, m) < timeout
  {
    AttemptsBounded(b, timeout, env, starts, m);
    TotalClosed(b, c, m);
  }

  predicate AllBlocked(env: seq<Attempt>) {
    forall k :: 0 <= k < |env| ==> Blocked(env[k])
  }

  /** Every attempt but the last begins before the deadline, so an environment that blocks forever runs
      into it: enough blocked answers end in a timeout, and no sequence of answers keeps the loop going. */
  lemma {:induction false} RetriesEnd(b: int, timeout: int, env: seq<Attempt>, r: Outcome, starts: seq<int>)
    requires 0 < b <= MAX_INT64 / 2 && Attempted(b, timeout, env, r, starts)
    ensures |starts| >= 2 ==> starts[|starts| - 2] < timeout && (|starts| - 2) * Min(b, CAP) < timeout
    ensures |env| >= 2 && (|env| - 2) * Min(b, CAP) >= timeout ==> !r.Unfinished? && (AllBlocked(env) ==> r.TimedOut?)
  {
    if |starts| >= 2 {
      var m: nat := |starts| - 2;
      WentOn(b, timeout, env, starts, m);
      FollowsSchedule(b, m + 1);
      assert starts[m] < timeout;
      AttemptsBounded(b, timeout, env, starts, m);
    }
  }

  // ----- the loop -----

  /** When the attempt after those made so far is due. */
  function Due(b: int, env: seq<Attempt>, starts: seq<int>): int
    requires |starts| <= |env|
  {
    if starts == [] then 0
    else
      var k := |starts| - 1;
      starts[k] + env[k].duration + Pause(b, k + 1) + env[k].late
  }

  /** The loop between attempts: all of those made so far were blocked, and the next one is due. */
  predicate Retrying(b: int, timeout: int, env: seq<Attempt>, starts: seq<int>) {
    |starts| <= |env| && Timeline(b, env, starts) && GoesOn(b, timeout, env, starts, |starts|)
  }

  /** One more attempt, made when it is due: it ends the loop exactly when it stops it. */
  lemma OneMoreAttempt(b: int, timeout: int, env: seq<Attempt>, starts: seq<int>)
    requires Retrying(b, timeout, env, starts) && |starts| < |env|
    ensures var n, now := |starts|, Due(b, env, starts);
      var more := starts + [now];
      Timeline(b, env, more) && GoesOn(b, timeout, env, more, n) &&
      (Stops(b, timeout, env[n], n, now) <==> !Retrying(b, timeout, env, more))
  {
    var n, now := |starts|, Due(b, env, starts);
    var more := starts + [now];
    assert more[n] == now;
    forall k: nat | k < n ensures !Stops(b, timeout, env[k], k, more[k]) {
      assert more[k] == starts[k] && !Stops(b, timeout, env[k], k, starts[k]);
    }
    forall k: nat | k < n
      ensures more[k + 1] == more[k] + env[k].duration + Pause(b, k + 1) + env[k].late
    {
      assert more[k] == starts[k] && (k < n - 1 ==> more[k + 1] == starts[k + 1]);
    }
  }

  /** What the attempt that stops the loop makes of it. */
  function Answered(a: Attempt, n: nat): Outcome {
    if Blocked(a) then TimedOut(n)
    else match a.answer
      case None => Evicted
      case Some(e) => if e.NotFound? then Gone else Rejected(e)
  }

  /** Every environment has an outcome. */
  lemma {:induction false} AttemptsExist(b: int, timeout: int, env: seq<Attempt>, so: seq<int>)
    returns (r: Outcome, starts: seq<int>)
    requires Retrying(b, timeout, env, so)
    ensures Attempted(b, timeout, env, r, starts)
    decreases |env| - |so|
  {
    if |so| == |env| {
      return Unfinished, so;
    }
    OneMoreAttempt(b, timeout, env, so);
    starts := so + [Due(b, env, so)];
    if Stops(b, timeout, env[|so|], |so|, Due(b, env, so)) {
      r := Answered(env[|so|], |so| + 1);
    } else {
      r, starts := AttemptsExist(b, timeout, env, starts);
    }
  }

  /** What an eviction shows, on the answers themselves: only 429 and 503 are retried; the last answer decides;
      and attempt follows attempt after the documented wait, 60 seconds at most beyond the base. */
  lemma {:induction false} AttemptsExplained(b: int, timeout: int, env: seq<Attempt>, r: Outcome, starts: seq<int>)
    requires Attempted(b, timeout, env, r, starts)
    ensures |starts| <= |env| && forall k :: 0 <= k < |starts| - 1 ==>
      (env[k].answer == Some(TooManyRequests) || env[k].answer == Some(ServiceUnavailable)) && env[k].timerFirst
    ensures r.Unfinished? || |starts| > 0
    ensures |starts| > 0 ==>
      var last := env[|starts| - 1].answer;
      match r
      case Evicted => last == None
      case Gone => last == Some(NotFound)
      case Rejected(e) => last == Some(e) && !e.TooManyRequests? && !e.ServiceUnavailable? && !e.NotFound?
      case TimedOut(n) => n == |starts| && (last == Some(TooManyRequests) || last == Some(ServiceUnavailable))
      case Unfinished => last == Some(TooManyRequests) || last == Some(ServiceUnavailable)
    ensures 0 < b <= 0x3FFF_FFFF_FFFF_FFFF ==> forall k: nat :: k + 1 < |starts| ==>
      starts[k + 1] == starts[k] + env[k].duration + env[k].late +
        if k == 0 || b * Pow2(k) <= 60_000_000_000 then b * Pow2(k) else 60_000_000_000
    ensures 0 < b <= 0x3FFF_FFFF_FFFF_FFFF ==>
      (forall k: nat :: k + 1 < |starts| ==> starts[k] + env[k].duration < timeout) &&
      (r.TimedOut? ==>
        var last := |starts| - 1; !env[last].timerFirst || starts[last] + env[last].duration >= timeout)
  {
    forall k: nat | k < |starts| - 1
      ensures (env[k].answer == Some(TooManyRequests) || env[k].answer == Some(ServiceUnavailable)) && env[k].timerFirst
    {
      WentOn(b, timeout, env, starts, k);
    }
    if r.Unfinished? && |starts| > 0 {
      assert !Stops(b, timeout, env[|starts| - 1], |starts| - 1, starts[|starts| - 1]);
    }
    if 0 < b <= MAX_INT64 / 2 {
      forall k: nat | k + 1 < |starts|
        ensures starts[k + 1] == starts[k] + env[k].duration + env[k].late +
          if k == 0 || b * Pow2(k) <= 60_000_000_000 then b * Pow2(k) else 60_000_000_000
        ensures starts[k] + env[k].duration < timeout
      {
        ScheduleExactlyWithoutOverflow(b);
        FollowsSchedule(b, k + 1);
        WentOn(b, timeout, env, starts, k);
      }
    }
  }

  /** Attempts the eviction until it is decided. `starts` are the attempts' start times, counted from
      the moment the deadline began to run; `env` is the environment, one entry an attempt. */
  method EvictWithPDBRetry(configuredInterval: int, configuredTimeout: int, env: seq<Attempt>)
    returns (r: Outcome, starts: seq<int>)
    ensures Attempted(
      if configuredInterval > 0 then configuredInterval else 5_000_000_000,
      if configuredTimeout > 0 then configuredTimeout else 300_000_000_000, env, r, starts)
  {
    var b, timeout := OrDefault(configuredInterval, DEFAULT_INTERVAL), OrDefault(configuredTimeout, DEFAULT_TIMEOUT);
    r, starts := RetryLoop(b, timeout, env);
  }

  method RetryLoop(b: int, timeout: int, env: seq<Attempt>) returns (r: Outcome, starts: seq<int>)
    ensures Attempted(b, timeout, env, r, starts)
  {
    var interval, now, attempt := b, 0, 1;
    starts := [];
    while |starts| < |env|
      invariant Retrying(b, timeout, env, starts)
      invariant attempt == |starts| + 1 && interval == WaitAfter(b, attempt) && now == Due(b, env, starts)
    {
      var a := env[|starts|];
      OneMoreAttempt(b, timeout, env, starts);
      starts := starts + [now];
      var t := now + a.duration;
      match a.answer {
        case None => return Evicted, starts;
        case Some(e) =>
          if e.TooManyRequests? || e.ServiceUnavailable? {
            if !a.timerFirst || (t >= timeout && interval > 0) {
              return TimedOut(attempt), starts;
            }
            now := t + (if interval > 0 then interval else 0) + a.late;
            interval := Wrap(interval * 2);
            if interval > CAP {
              interval := CAP;
            }
            attempt := attempt + 1;
          } else if e.NotFound? {
            return Gone, starts;
          } else {
            return Rejected(e), starts;
          }
      }
    }
    r := Unfinished;
  }
}
