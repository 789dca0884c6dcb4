/**
 How often the two rate limiters let a remote through: the sliding window of the session registry,
 and the fixed window of the pairing rate limiter.
 */
module Admission {
  import opened Bytes
  import opened Wrappers
  import opened Replay
  import opened Finite
  import opened Sessions

  // ---------------------------------------------------------------------------------------------
  // Counting in an interval
  // ---------------------------------------------------------------------------------------------

  ghost predicate Sorted(times: seq<nat>) {
    forall i, j :: 0 <= i <= j < |times| ==> times[i] <= times[j]
  }

  /** Any `m + 1` consecutive times span more than `window`. */
  ghost predicate Spaced(times: seq<nat>, m: nat, window: nat) {
    forall k :: m <= k < |times| ==> times[k - m] + window < times[k]
  }

  ghost function Within(times: seq<nat>, t: nat, window: nat): set<int> {
    set k | 0 <= k < |times| && t <= times[k] <= t + window
  }

  /** Spaced times put at most `m` in any closed interval as long as the window. */
  lemma {:induction false} SpacedCount(times: seq<nat>, m: nat, t: nat, window: nat)
    requires Sorted(times) && Spaced(times, m, window)
    ensures |Within(times, t, window)| <= m
  {
    if times != [] {
      var n := |times| - 1;
      var before := times[..n];
      if t <= times[n] <= t + window {
        var lo := if m <= n then n + 1 - m else 0;
        forall k | k in Within(times, t, window)
          ensures lo <= k < n + 1
        {
          assert m <= n ==> times[n - m] + window < times[n];
        }
        IntervalCardinality(Within(times, t, window), lo, n + 1);
      } else {
        SpacedCount(before, m, t, window);
        assert Within(times, t, window) == Within(before, t, window);
      }
    }
  }

  lemma SpacedExtends(times: seq<nat>, m: nat, window: nat, now: nat)
    requires Sorted(times) && Spaced(times, m, window)
    requires times != [] ==> times[|times| - 1] <= now
    requires m <= |times| && m > 0 ==> times[|times| - m] + window < now
    requires m > 0
    ensures Sorted(times + [now]) && Spaced(times + [now], m, window)
  {
  }

  // ---------------------------------------------------------------------------------------------
  // The registry's sliding window
  // ---------------------------------------------------------------------------------------------

  /** An unknown peer of an address asking to be let in at a time. */
  datatype Attempt = Attempt(ip: nat, at: nat)

  ghost predicate Monotone(attempts: seq<Attempt>) {
    forall i, j :: 0 <= i <= j < |attempts| ==> attempts[i].at <= attempts[j].at
  }

  /** The attempts the registry remembers for an address. */
  function Remembered(attempts: seq<Attempt>, ip: nat): seq<nat> {
    if attempts == [] then []
    else
      var before, last := Remembered(attempts[..|attempts| - 1], ip), attempts[|attempts| - 1];
      if last.ip == ip then AfterAttempt(before, last.at) else before
  }

  /** When attempts of an address were let in, in order. */
  function Admitted(attempts: seq<Attempt>, ip: nat): seq<nat> {
    if attempts == [] then []
    else
      var prefix, last := attempts[..|attempts| - 1], attempts[|attempts| - 1];
      Admitted(prefix, ip) + if last.ip == ip && Admits(Remembered(prefix, ip), last.at) then [last.at] else []
  }

  /** `queue` is the recent end of `admitted`; what was dropped from it is older than the window. */
  ghost predicate RecentEnd(admitted: seq<nat>, queue: seq<nat>, now: nat) {
    && |queue| <= |admitted| && |queue| <= MAX_PENDING_ATTEMPTS_PER_IP
    && queue == admitted[|admitted| - |queue|..]
    && Sorted(admitted) && Spaced(admitted, MAX_PENDING_ATTEMPTS_PER_IP, PENDING_ATTEMPT_WINDOW)
    && (admitted != [] ==> admitted[|admitted| - 1] <= now)
    && forall k :: 0 <= k < |admitted| - |queue| ==> admitted[k] + PENDING_ATTEMPT_WINDOW < now
  }

  lemma {:induction false} PurgeKeepsRecentEnd(admitted: seq<nat>, queue: seq<nat>, now: nat)
    requires RecentEnd(admitted, queue, now)
    ensures RecentEnd(admitted, Purged(queue, now), now)
    decreases |queue|
  {
    if queue != [] && Since(now, queue[0]) > PENDING_ATTEMPT_WINDOW {
      assert queue[0] == admitted[|admitted| - |queue|];
      assert queue[1..] == admitted[|admitted| - |queue[1..]|..];
      PurgeKeepsRecentEnd(admitted, queue[1..], now);
    }
  }

  lemma RecentEndLater(admitted: seq<nat>, queue: seq<nat>, now: nat, later: nat)
    requires RecentEnd(admitted, queue, now) && now <= later
    ensures RecentEnd(admitted, queue, later)
  {
  }

  lemma {:induction false} AttemptsRemembered(attempts: seq<Attempt>, ip: nat)
    requires Monotone(attempts) && attempts != []
    ensures RecentEnd(Admitted(attempts, ip), Remembered(attempts, ip), attempts[|attempts| - 1].at)
  {
    var n := |attempts| - 1;
    var prefix, last := attempts[..n], attempts[n];
    var admitted, queue := Admitted(prefix, ip), Remembered(prefix, ip);
    assert RecentEnd(admitted, queue, last.at) by {
      if n > 0 {
        AttemptsRemembered(prefix, ip);
        RecentEndLater(admitted, queue, prefix[n - 1].at, last.at);
      } else {
        assert admitted == [] && queue == [];
      }
    }
    if last.ip == ip {
      AttemptStep(admitted, queue, last.at);
    } else {
      assert admitted + [] == admitted;
    }
  }

  lemma AttemptStep(admitted: seq<nat>, queue: seq<nat>, now: nat)
    requires RecentEnd(admitted, queue, now)
    ensures RecentEnd(admitted + (if Admits(queue, now) then [now] else []), AfterAttempt(queue, now), now)
  {
    PurgeKeepsRecentEnd(admitted, queue, now);
    if Admits(queue, now) {
      AdmitStep(admitted, Purged(queue, now), now);
    } else {
      assert admitted + [] == admitted;
    }
  }

  lemma AdmitStep(admitted: seq<nat>, queue: seq<nat>, now: nat)
    requires RecentEnd(admitted, queue, now) && |queue| < MAX_PENDING_ATTEMPTS_PER_IP
    ensures RecentEnd(admitted + [now], queue + [now], now)
  {
    var m := MAX_PENDING_ATTEMPTS_PER_IP;
    if m <= |admitted| {
      assert admitted[|admitted| - m] + PENDING_ATTEMPT_WINDOW < now;
    }
    SpacedExtends(admitted, m, PENDING_ATTEMPT_WINDOW, now);
    assert (admitted + [now])[|admitted| - |queue|..] == queue + [now];
  }

  /** An attempt is let in exactly when fewer than twelve of its address were in the ten seconds before it,
      the first moment included. */
  lemma AdmittedExactly(attempts: seq<Attempt>, ip: nat, now: nat)
    requires Monotone(attempts) && (attempts != [] ==> attempts[|attempts| - 1].at <= now)
    ensures var admitted := Admitted(attempts, ip);
            Admits(Remembered(attempts, ip), now) <==> |(set k | 0 <= k < |admitted| && admitted[k] + 10_000_000_000 >= now)| < 12
  {
    var admitted, queue := Admitted(attempts, ip), Remembered(attempts, ip);
    if attempts == [] {
      assert RecentEnd(admitted, queue, now);
    } else {
      AttemptsRemembered(attempts, ip);
      RecentEndLater(admitted, queue, attempts[|attempts| - 1].at, now);
    }
    PurgeKeepsRecentEnd(admitted, queue, now);
    var kept := Purged(queue, now);
    PurgedRecent(queue, now);
    RecentCount(admitted, kept, now);
  }

  lemma {:induction false} PurgedRecent(queue: seq<nat>, now: nat)
    ensures Purged(queue, now) != [] ==> Purged(queue, now)[0] + PENDING_ATTEMPT_WINDOW >= now
  {
    if queue != [] && Since(now, queue[0]) > PENDING_ATTEMPT_WINDOW {
      PurgedRecent(queue[1..], now);
    }
  }

  lemma RecentCount(admitted: seq<nat>, kept: seq<nat>, now: nat)
    requires RecentEnd(admitted, kept, now) && (kept != [] ==> kept[0] + PENDING_ATTEMPT_WINDOW >= now)
    ensures |(set k | 0 <= k < |admitted| && admitted[k] + PENDING_ATTEMPT_WINDOW >= now)| == |kept|
  {
    var first := |admitted| - |kept|;
    var recent := set k | 0 <= k < |admitted| && admitted[k] + PENDING_ATTEMPT_WINDOW >= now;
    forall k | first <= k < |admitted|
      ensures k in recent
    {
      assert admitted[first] == kept[0];
    }
    assert recent == Between(first, |admitted|);
  }

  /** Under a clock that never goes back, at most twelve attempts of one address are let in during
      any closed ten-second interval, whatever else happens. */
  lemma AdmissionBound(attempts: seq<Attempt>, ip: nat, t: nat)
    requires Monotone(attempts)
    ensures |Within(Admitted(attempts, ip), t, PENDING_ATTEMPT_WINDOW)| <= MAX_PENDING_ATTEMPTS_PER_IP
  {
    if attempts != [] {
      AttemptsRemembered(attempts, ip);
    }
    SpacedCount(Admitted(attempts, ip), MAX_PENDING_ATTEMPTS_PER_IP, t, PENDING_ATTEMPT_WINDOW);
  }

  // ---------------------------------------------------------------------------------------------
  // The pairing rate limiter's fixed window
  // ---------------------------------------------------------------------------------------------

  datatype AttemptWindow = AttemptWindow(startedAt: nat, count: u32)

  /** The window after a check at `now`; the counter is 32 bits wide and wraps around. */
  function Checked(w: Option<AttemptWindow>, now: nat, window: nat): AttemptWindow {
    var entry := if w.Some? then w.value else AttemptWindow(now, 0);
    var current := if Since(now, entry.startedAt) > window then AttemptWindow(now, 0) else entry;
    current.(count := (current.count + 1) % TWO_TO_THE_32)
  }

  class PairingRateLimiter {
    const maxAttempts: u32
    const window: nat
    var attempts: map<string, AttemptWindow>

    constructor (maxAttempts: u32, window: nat)
      ensures this.maxAttempts == maxAttempts && this.window == window && attempts == map[]
    {
      this.maxAttempts := maxAttempts;
      this.window := window;
      this.attempts := map[];
    }

    function WindowOf(remote: string): Option<AttemptWindow>
      reads this
    {
      if remote in attempts then Some(attempts[remote]) else None
    }

    method Check(remote: string, now: nat) returns (ok: bool)
      modifies this
      ensures attempts == old(attempts)[remote := Checked(old(WindowOf(remote)), now, window)]
      ensures ok <==> Checked(old(WindowOf(remote)), now, window).count <= maxAttempts
    {
      if remote !in attempts {
        attempts := attempts[remote := AttemptWindow(now, 0)];
      }
      var entry := attempts[remote];
      if Since(now, entry.startedAt) > window {
        entry := AttemptWindow(now, 0);
      }
      entry := entry.(count := (entry.count + 1) % TWO_TO_THE_32);
      attempts := attempts[remote := entry];
      return entry.count <= maxAttempts;
    }
  }

  /** One remote's window after checks at the given times. */
  function WindowAfter(checks: seq<nat>, window: nat): Option<AttemptWindow> {
    if checks == [] then None
    else Some(Checked(WindowAfter(checks[..|checks| - 1], window), checks[|checks| - 1], window))
  }

  /** When one remote's checks passed. */
  function Passed(checks: seq<nat>, max: u32, window: nat): seq<nat> {
    if checks == [] then []
    else
      Passed(checks[..|checks| - 1], max, window)
      + if WindowAfter(checks, window).value.count <= max then [checks[|checks| - 1]] else []
  }

  /** How many of the first `c` checks of one window pass: up to the limit until the counter wraps, and
      then, from the wrapped zero on, every one until the limit is reached again. */
  function Passes(c: nat, max: u32): nat {
    if c < TWO_TO_THE_32 then Min(c, max) else max + c - TWO_TO_THE_32 + 1
  }

  /** The passes so far, by window: all before the previous one, the previous one's, and the current
      one's, with the number of checks made in the last two. */
  datatype ByWindow = ByWindow(
    older: seq<nat>,
    previous: seq<nat>,
    current: seq<nat>,
    previousStart: nat,
    previousChecks: nat,
    currentChecks: nat)

  ghost predicate Explains(b: ByWindow, passed: seq<nat>, w: AttemptWindow, max: u32, window: nat, now: nat, checks: nat) {
    && passed == b.older + b.previous + b.current
    && Sorted(passed) && Spaced(passed, 2 * max, window)
    && w.startedAt <= now
    && b.previousChecks + b.currentChecks <= checks < TWO_TO_THE_32 + max
    && w.count == (if b.currentChecks < TWO_TO_THE_32 then b.currentChecks else b.currentChecks - TWO_TO_THE_32)
    && |b.previous| <= Passes(b.previousChecks, max) && |b.current| == Passes(b.currentChecks, max)
    && (forall a :: a in b.older ==> a < b.previousStart)
    && (b.older != [] ==> b.previousStart + window < w.startedAt)
    && (forall a :: a in b.previous ==> a < w.startedAt)
    && (forall a :: a in b.older ==> a < w.startedAt)
    && (forall a :: a in b.current ==> w.startedAt <= a <= Min(now, w.startedAt + window))
  }

  lemma {:induction false} LimiterExplained(checks: seq<nat>, max: u32, window: nat) returns (b: ByWindow)
    requires Sorted(checks) && 0 < |checks| < TWO_TO_THE_32 + max && max > 0
    ensures Explains(b, Passed(checks, max, window), WindowAfter(checks, window).value, max, window, checks[|checks| - 1], |checks|)
  {
    var n := |checks| - 1;
    var prefix, at := checks[..n], checks[n];
    if n == 0 {
      b := FirstCheck(at, max, window);
      assert checks == [at];
    } else {
      b := LimiterExplained(prefix, max, window);
      var w := WindowAfter(prefix, window).value;
      ExplainedLater(b, Passed(prefix, max, window), w, max, window, prefix[n - 1], at, n);
      b := CheckExplained(b, Passed(prefix, max, window), w, max, window, at, n);
    }
  }

  lemma FirstPass(at: nat, max: u32, window: nat)
    ensures WindowAfter([at], window) == Some(AttemptWindow(at, 1))
    ensures Passed([at], max, window) == if max > 0 then [at] else []
  {
    assert [at][..0] == [];
    assert WindowAfter([], window) == None && Passed([], max, window) == [];
  }

  lemma FirstCheck(at: nat, max: u32, window: nat) returns (b: ByWindow)
    requires max > 0
    ensures Explains(b, Passed([at], max, window), WindowAfter([at], window).value, max, window, at, 1)
  {
    FirstPass(at, max, window);
    OneExplained(at, max, window);
    b := ByWindow([], [], [at], 0, 0, 1);
  }

  lemma OneExplained(at: nat, max: u32, window: nat)
    requires max > 0
    ensures Explains(ByWindow([], [], [at], 0, 0, 1), [at], AttemptWindow(at, 1), max, window, at, 1)
  {
    var b := ByWindow([], [], [at], 0, 0, 1);
    assert Passes(0, max) == 0 && Passes(1, max) == 1;
    assert b.older + b.previous + b.current == [at];
    OneSpaced(at, 2 * max, window);
  }

  lemma OneSpaced(at: nat, m: nat, window: nat)
    requires m > 0
    ensures Sorted([at]) && Spaced([at], m, window)
  {
  }

  lemma ExplainedLater(b: ByWindow, passed: seq<nat>, w: AttemptWindow, max: u32, window: nat, now: nat, later: nat, checks: nat)
    requires Explains(b, passed, w, max, window, now, checks) && now <= later
    ensures Explains(b, passed, w, max, window, later, checks)
  {
  }

  /** The counter after one more check of the same window. */
  lemma CountNext(c: nat, max: u32)
    requires c + 1 <= TWO_TO_THE_32 + max
    ensures var count, next := if c < TWO_TO_THE_32 then c else c - TWO_TO_THE_32, c + 1;
            && (count + 1) % TWO_TO_THE_32 == (if next < TWO_TO_THE_32 then next else next - TWO_TO_THE_32)
            && ((count + 1) % TWO_TO_THE_32 <= max <==> next <= max || next >= TWO_TO_THE_32)
            && Passes(next, max) == Passes(c, max) + if next <= max || next >= TWO_TO_THE_32 then 1 else 0
  {
  }

  lemma CheckExplained(b: ByWindow, passed: seq<nat>, w: AttemptWindow, max: u32, window: nat, now: nat, checks: nat) returns (b': ByWindow)
    requires Explains(b, passed, w, max, window, now, checks) && checks + 1 < TWO_TO_THE_32 + max && max > 0
    ensures var w' := Checked(Some(w), now, window);
            Explains(b', passed + (if w'.count <= max then [now] else []), w', max, window, now, checks + 1)
  {
    var next := b.currentChecks + 1;
    CountNext(b.currentChecks, max);
    if Since(now, w.startedAt) > window {
      b' := NewWindowExplained(b, passed, w, max, window, now, checks);
    } else if next <= max || next >= TWO_TO_THE_32 {
      b' := PassExplained(b, passed, w, max, window, now, checks);
    } else {
      assert passed + [] == passed;
      b' := b.(currentChecks := next);
    }
  }

  lemma NewWindowExplained(b: ByWindow, passed: seq<nat>, w: AttemptWindow, max: u32, window: nat, now: nat, checks: nat) returns (b': ByWindow)
    requires Explains(b, passed, w, max, window, now, checks) && checks + 1 < TWO_TO_THE_32 + max && max > 0
    requires Since(now, w.startedAt) > window
    ensures Explains(b', passed + [now], AttemptWindow(now, 1), max, window, now, checks + 1)
  {
    b' := ByWindow(b.older + b.previous, b.current, [now], w.startedAt, b.currentChecks, 1);
    PassSpaced(b, passed, w, max, window, now, checks);
    assert b'.older + b'.previous + b'.current == passed + [now];
  }

  lemma PassExplained(b: ByWindow, passed: seq<nat>, w: AttemptWindow, max: u32, window: nat, now: nat, checks: nat) returns (b': ByWindow)
    requires Explains(b, passed, w, max, window, now, checks) && checks + 1 < TWO_TO_THE_32 + max && max > 0
    requires Since(now, w.startedAt) <= window && (b.currentChecks + 1 <= max || b.currentChecks + 1 >= TWO_TO_THE_32)
    ensures Explains(b', passed + [now], w.(count := (w.count + 1) % TWO_TO_THE_32), max, window, now, checks + 1)
  {
    CountNext(b.currentChecks, max);
    b' := b.(current := b.current + [now], currentChecks := b.currentChecks + 1);
    PassSpaced(b, passed, w, max, window, now, checks);
    assert b'.older + b'.previous + b'.current == passed + [now];
  }

  /** Two windows cannot have passed twice the limit with a check to spare. */
  lemma TwoWindows(previous: nat, current: nat, checks: nat, max: u32)
    requires previous + current <= checks && checks + 1 < TWO_TO_THE_32 + max && max > 0
    ensures current + 1 <= max || current + 1 >= TWO_TO_THE_32 ==> Passes(previous, max) + Passes(current, max) < 2 * max
    ensures Passes(current, max) < 2 * max
  {
  }

  /** A pass is more than a window after the pass `2 * max` before it. */
  lemma PassSpaced(b: ByWindow, passed: seq<nat>, w: AttemptWindow, max: u32, window: nat, now: nat, checks: nat)
    requires Explains(b, passed, w, max, window, now, checks) && checks + 1 < TWO_TO_THE_32 + max && max > 0
    requires Since(now, w.startedAt) > window || b.currentChecks + 1 <= max || b.currentChecks + 1 >= TWO_TO_THE_32
    ensures Sorted(passed + [now]) && Spaced(passed + [now], 2 * max, window)
  {
    TwoWindows(b.previousChecks, b.currentChecks, checks, max);
    if 2 * max <= |passed| {
      var k := |passed| - 2 * max;
      if Since(now, w.startedAt) > window {
        assert k < |b.older| + |b.previous|;
        assert passed[k] == (b.older + b.previous)[k];
        assert passed[k] in b.older + b.previous;
      } else {
        assert k < |b.older|;
        assert passed[k] == b.older[k];
        assert passed[k] in b.older;
      }
    }
    assert passed != [] ==> passed[|passed| - 1] <= now by {
      if passed != [] {
        var last := passed[|passed| - 1];
        assert last in b.older + b.previous + b.current;
      }
    }
    SpacedExtends(passed, 2 * max, window, now);
  }

  /** With fewer than 2^32 plus the limit checks, at most twice the limit pass in any closed interval as
      long as the window, wrapped counter included. */
  lemma FixedWindowBound(checks: seq<nat>, max: u32, window: nat, t: nat)
    requires Sorted(checks) && |checks| < TWO_TO_THE_32 + max
    ensures |Within(Passed(checks, max, window), t, window)| <= 2 * max
  {
    if max == 0 {
      NonePass(checks, window);
    } else if checks != [] {
      var b := LimiterExplained(checks, max, window);
      SpacedCount(Passed(checks, max, window), 2 * max, t, window);
    }
  }

  lemma {:induction false} NonePass(checks: seq<nat>, window: nat)
    requires |checks| < TWO_TO_THE_32
    ensures Passed(checks, 0, window) == []
    ensures checks != [] ==> 1 <= WindowAfter(checks, window).value.count <= |checks|
  {
    if checks != [] {
      NonePass(checks[..|checks| - 1], window);
    }
  }

  function AtOnce(n: nat, now: nat): (checks: seq<nat>)
    ensures |checks| == n && forall i :: 0 <= i < n ==> checks[i] == now
  {
    seq(n, _ => now)
  }

  /** Checks all made at one instant share one window. */
  lemma {:induction false} OneInstant(n: nat, now: nat, max: u32, window: nat)
    requires n <= TWO_TO_THE_32 + max
    ensures n > 0 ==> WindowAfter(AtOnce(n, now), window) == Some(AttemptWindow(now, if n < TWO_TO_THE_32 then n else n - TWO_TO_THE_32))
    ensures Passed(AtOnce(n, now), max, window) == AtOnce(Passes(n, max), now)
  {
    var checks := AtOnce(n, now);
    if n == 1 {
      FirstPass(now, max, window);
      assert checks == [now];
    } else if n > 1 {
      OneInstant(n - 1, now, max, window);
      CountNext(n - 1, max);
      assert checks[..n - 1] == AtOnce(n - 1, now);
      assert AtOnce(Passes(n - 1, max), now) + [now] == AtOnce(Passes(n - 1, max) + 1, now);
    }
  }

  /** At 2^32 plus the limit checks the bound breaks: made at one instant, twice the limit and one pass. */
  lemma WrapBreaksBound(max: u32, window: nat, now: nat)
    ensures |Within(Passed(AtOnce(TWO_TO_THE_32 + max, now), max, window), now, window)| == 2 * max + 1
  {
    OneInstant(TWO_TO_THE_32 + max, now, max, window);
    assert Within(AtOnce(2 * max + 1, now), now, window) == Indices(2 * max + 1);
  }

  /** The limiter lets at most twice its limit through in any window-long interval of any run of up to
      `n` checks exactly when `n` is below 2^32 plus the limit. */
  lemma FixedWindowExact(n: nat, max: u32, window: nat)
    ensures (forall checks: seq<nat>, t: nat :: Sorted(checks) && |checks| <= n ==> |Within(Passed(checks, max, window), t, window)| <= 2 * max)
            <==> n < TWO_TO_THE_32 + max
  {
    if n < TWO_TO_THE_32 + max {
      forall checks: seq<nat>, t: nat | Sorted(checks) && |checks| <= n
        ensures |Within(Passed(checks, max, window), t, window)| <= 2 * max
      {
        FixedWindowBound(checks, max, window, t);
      }
    } else {
      WrapBreaksBound(max, window, 0);
      assert Sorted(AtOnce(TWO_TO_THE_32 + max, 0));
    }
  }
}
