/** The per-report failure throttle: the tumbling window that failGeneration
    keeps on the report row and the lock that start tests, proved against the
    times at which one report failed. */
module Throttle {
  import opened Rows

  const CLEAR := ThrottleRecord(None, 0, None)

  /** What failGeneration writes into the report row when it fails a generation at now. */
  function Fail(policy: ThrottlePolicy, record: ThrottleRecord, now: Time): ThrottleRecord {
    var within := record.windowStart.Some? && 0 <= now - record.windowStart.value <= policy.windowMs;
    var failures := if within then record.failures + 1 else 1;
    ThrottleRecord(
      if within then record.windowStart else Some(now),
      failures,
      if failures >= policy.limit then Some(now + policy.lockMs) else None)
  }

  predicate Unlocked(record: ThrottleRecord, now: Time) {
    record.lockedUntil.None? || record.lockedUntil.value <= now
  }

  /** The record left by the first n of a sequence of failure times, oldest first. */
  function After(policy: ThrottlePolicy, times: seq<Time>, n: nat): ThrottleRecord
    requires n <= |times|
  {
    if n == 0 then CLEAR else Fail(policy, After(policy, times, n - 1), times[n - 1])
  }

  /** The failure times of one report that the lock lets happen. */
  ghost predicate Admissible(policy: ThrottlePolicy, times: seq<Time>) {
    && (forall i, j | 0 <= i <= j < |times| :: times[i] <= times[j])
    && (forall i | 0 <= i < |times| :: AllowedAt(policy, times, i))
  }

  predicate AllowedAt(policy: ThrottlePolicy, times: seq<Time>, i: nat)
    requires i < |times|
  {
    Unlocked(After(policy, times, i), times[i])
  }

  lemma {:induction false} AfterPrefix(policy: ThrottlePolicy, times: seq<Time>, now: Time, n: nat)
    requires n <= |times|
    ensures After(policy, times + [now], n) == After(policy, times, n)
  {
    if n > 0 { AfterPrefix(policy, times, now, n - 1); }
  }

  lemma AdmissibleExtend(policy: ThrottlePolicy, times: seq<Time>, now: Time)
    requires Admissible(policy, times)
    requires |times| > 0 ==> times[|times| - 1] <= now
    requires Unlocked(After(policy, times, |times|), now)
    ensures Admissible(policy, times + [now])
    ensures After(policy, times + [now], |times| + 1) == Fail(policy, After(policy, times, |times|), now)
  {
    AfterPrefix(policy, times, now, |times|);
    forall i | 0 <= i <= |times| ensures AllowedAt(policy, times + [now], i) {
      AfterPrefix(policy, times, now, i);
      assert i < |times| ==> AllowedAt(policy, times, i);
    }
  }

  /** What the three columns mean after n failures: the counter counts the failures since the one that
      begun the window, all of them inside the window, and the lock follows the last one. */
  ghost predicate Meaning(policy: ThrottlePolicy, times: seq<Time>, n: nat, r: ThrottleRecord)
    requires 0 < n <= |times|
  {
    && 1 <= r.failures <= n
    && r.windowStart == Some(times[n - r.failures])
    && 0 <= times[n - 1] - times[n - r.failures] <= policy.windowMs
    && r.lockedUntil == (if r.failures >= policy.limit then Some(times[n - 1] + policy.lockMs) else None)
  }

  lemma {:induction false} RecordMeaning(policy: ThrottlePolicy, times: seq<Time>, n: nat)
    requires Admissible(policy, times) && 0 < n <= |times|
    ensures Meaning(policy, times, n, After(policy, times, n))
  {
    if n > 1 {
      RecordMeaning(policy, times, n - 1);
    }
  }

  /** The failure that begun the current window fell outside the window before it. */
  lemma {:induction false} WindowsAreApart(policy: ThrottlePolicy, times: seq<Time>, n: nat)
    requires Admissible(policy, times) && 0 < n <= |times|
    ensures var opens := n - After(policy, times, n).failures;
            opens >= 0
            && (opens > 0 ==>
                  var start := After(policy, times, opens).windowStart;
                  start.Some? && times[opens] - start.value > policy.windowMs)
  {
    RecordMeaning(policy, times, n);
    if n > 1 {
      RecordMeaning(policy, times, n - 1);
      WindowsAreApart(policy, times, n - 1);
    }
  }

  /** With a lock longer than the window, no counting window ever holds more failures than the limit. */
  lemma {:induction false} CounterNeverExceedsLimit(policy: ThrottlePolicy, times: seq<Time>, n: nat)
    requires Admissible(policy, times) && n <= |times| && policy.lockMs > policy.windowMs
    ensures After(policy, times, n).failures <= policy.limit
  {
    if n > 1 {
      CounterNeverExceedsLimit(policy, times, n - 1);
      RecordMeaning(policy, times, n - 1);
      assert AllowedAt(policy, times, n - 1);
    }
  }

  function Bound(limit: Pos): nat {
    if limit > 2 * limit - 2 then limit else 2 * limit - 2
  }

  /** The throttle bound: with a lock longer than the window, any stretch of one window length holds at
      most max(limit, 2*limit - 2) terminal failures, and a stretch that holds that many ends in a lock.
      This is below the 2*limit - 1 that two full windows would suggest. */
  lemma {:induction false} FailuresInAnyWindow(policy: ThrottlePolicy, times: seq<Time>, i: nat, j: nat)
    requires Admissible(policy, times) && policy.lockMs > policy.windowMs
    requires i <= j < |times| && times[j] - times[i] <= policy.windowMs
    ensures j - i + 1 <= Bound(policy.limit)
    ensures j - i + 1 == Bound(policy.limit) ==>
              After(policy, times, j + 1).lockedUntil == Some(times[j] + policy.lockMs)
  {
    RecordMeaning(policy, times, j + 1);
    CounterNeverExceedsLimit(policy, times, j + 1);
    WindowsAreApart(policy, times, j + 1);
    var opens := j + 1 - After(policy, times, j + 1).failures;
    if opens > i {
      EarlierWindowContributes(policy, times, i, j, opens);
    }
  }

  /** The part of the stretch that lies in the window before the current one. */
  lemma EarlierWindowContributes(policy: ThrottlePolicy, times: seq<Time>, i: nat, j: nat, opens: nat)
    requires Admissible(policy, times) && policy.lockMs > policy.windowMs
    requires i < opens <= j < |times| && times[j] - times[i] <= policy.windowMs
    requires var start := After(policy, times, opens).windowStart;
             start.Some? && times[opens] - start.value > policy.windowMs
    ensures opens - i <= policy.limit - 2
  {
    RecordMeaning(policy, times, opens);
    CounterNeverExceedsLimit(policy, times, opens);
    var prior := After(policy, times, opens);
    assert AllowedAt(policy, times, opens);
  }

  function Repeat(t: Time, n: nat): (s: seq<Time>)
    ensures |s| == n
  {
    seq(n, _ => t)
  }

  /** n more failures at one instant inside the open window, as many as the limit leaves room for. */
  lemma {:induction false} Burst(policy: ThrottlePolicy, times: seq<Time>, t: Time, n: nat)
    requires Admissible(policy, times) && |times| > 0 && times[|times| - 1] <= t
    requires var r := After(policy, times, |times|);
             && r.windowStart.Some? && 0 <= t - r.windowStart.value <= policy.windowMs
             && r.lockedUntil == (if r.failures >= policy.limit then Some(times[|times| - 1] + policy.lockMs) else None)
             && r.failures + n <= policy.limit
    ensures Admissible(policy, times + Repeat(t, n))
    ensures n > 0 ==> After(policy, times + Repeat(t, n), |times| + n) == Counted(policy, After(policy, times, |times|), t, n)
  {
    if n == 0 {
      assert times + Repeat(t, 0) == times;
    } else {
      Burst(policy, times, t, n - 1);
      var shorter := times + Repeat(t, n - 1);
      if n == 1 { assert shorter == times; }
      AdmissibleExtend(policy, shorter, t);
      assert times + Repeat(t, n) == shorter + [t];
    }
  }

  /** The record after n more failures at t inside its window. */
  function Counted(policy: ThrottlePolicy, r: ThrottleRecord, t: Time, n: nat): ThrottleRecord {
    ThrottleRecord(r.windowStart, r.failures + n, if r.failures + n >= policy.limit then Some(t + policy.lockMs) else None)
  }

  /** Up to limit failures at one instant that falls outside the window before it. */
  lemma OpenWindow(policy: ThrottlePolicy, times: seq<Time>, t: Time, n: Pos)
    requires Admissible(policy, times) && n <= policy.limit
    requires |times| > 0 ==> times[|times| - 1] <= t
    requires var r := After(policy, times, |times|);
             Unlocked(r, t) && (r.windowStart.Some? ==> t - r.windowStart.value > policy.windowMs)
    ensures Admissible(policy, times + Repeat(t, n))
    ensures After(policy, times + Repeat(t, n), |times| + n)
            == ThrottleRecord(Some(t), n, if n >= policy.limit then Some(t + policy.lockMs) else None)
  {
    RepeatSplits(times, t, n);
    FirstOfWindow(policy, times, t);
    WindowGrows(policy, times + [t], t, n - 1, times + Repeat(t, n));
  }

  /** From the first failure of a window to its n-th. */
  lemma WindowGrows(policy: ThrottlePolicy, begun: seq<Time>, t: Time, n: nat, all: seq<Time>)
    requires Admissible(policy, begun) && |begun| > 0 && begun[|begun| - 1] == t && n + 1 <= policy.limit
    requires After(policy, begun, |begun|) == ThrottleRecord(Some(t), 1, if 1 >= policy.limit then Some(t + policy.lockMs) else None)
    requires all == begun + Repeat(t, n)
    ensures Admissible(policy, all)
    ensures After(policy, all, |all|) == ThrottleRecord(Some(t), n + 1, if n + 1 >= policy.limit then Some(t + policy.lockMs) else None)
  {
    Burst(policy, begun, t, n);
    if n == 0 { assert all == begun; }
  }

  lemma FirstOfWindow(policy: ThrottlePolicy, times: seq<Time>, t: Time)
    requires Admissible(policy, times)
    requires |times| > 0 ==> times[|times| - 1] <= t
    requires var r := After(policy, times, |times|);
             Unlocked(r, t) && (r.windowStart.Some? ==> t - r.windowStart.value > policy.windowMs)
    ensures Admissible(policy, times + [t])
    ensures After(policy, times + [t], |times + [t]|)
            == ThrottleRecord(Some(t), 1, if 1 >= policy.limit then Some(t + policy.lockMs) else None)
  {
    AdmissibleExtend(policy, times, t);
  }

  lemma RepeatSplits(times: seq<Time>, t: Time, n: Pos)
    ensures times + Repeat(t, n) == times + [t] + Repeat(t, n - 1)
    ensures |times + [t]| + (n - 1) == |times| + n
  {
  }

  /** One failure opens a window, n more follow at its end, and limit more at a time outside it that no lock forbids. */
  lemma FillTwice(policy: ThrottlePolicy, n: Pos, t: Time) returns (times: seq<Time>)
    requires n + 1 <= policy.limit && t > policy.windowMs
    requires n + 1 == policy.limit ==> t >= policy.windowMs + policy.lockMs
    ensures Admissible(policy, times) && |times| == 1 + n + policy.limit
    ensures times[1] == policy.windowMs && times[|times| - 1] == t
  {
    var first := FillOnce(policy, n);
    OpenWindow(policy, first, t, policy.limit);
    times := first + Repeat(t, policy.limit);
  }

  lemma FillOnce(policy: ThrottlePolicy, n: Pos) returns (times: seq<Time>)
    requires n + 1 <= policy.limit
    ensures Admissible(policy, times) && |times| == 1 + n && times[1] == times[|times| - 1] == policy.windowMs
    ensures After(policy, times, |times|)
            == ThrottleRecord(Some(0), n + 1, if n + 1 >= policy.limit then Some(policy.windowMs + policy.lockMs) else None)
  {
    OpenWindow(policy, [], 0, 1);
    var first := [] + Repeat(0, 1);
    Burst(policy, first, policy.windowMs, n);
    times := first + Repeat(policy.windowMs, n);
  }

  /** The bound is reached. For a limit of one or two, a window that is filled at one instant reaches it; for more, one
      failure opens a window, limit - 2 close it, and limit more open and fill the next one millisecond later. */
  lemma BoundIsReached(policy: ThrottlePolicy) returns (times: seq<Time>, i: nat, j: nat)
    requires policy.windowMs >= 1
    ensures Admissible(policy, times) && i <= j < |times|
    ensures times[j] - times[i] <= policy.windowMs && j - i + 1 == Bound(policy.limit)
  {
    if policy.limit <= 2 {
      OpenWindow(policy, [], 0, policy.limit);
      times := [] + Repeat(0, policy.limit);
      i, j := 0, |times| - 1;
    } else {
      times := FillTwice(policy, policy.limit - 2, policy.windowMs + 1);
      i, j := 1, |times| - 1;
    }
  }

  /** With a lock that fits in the window, one more failure is counted once it expires. */
  lemma ShortLockOverflows(policy: ThrottlePolicy) returns (times: seq<Time>)
    requires policy.lockMs <= policy.windowMs
    ensures Admissible(policy, times) && After(policy, times, |times|).failures == policy.limit + 1
  {
    OpenWindow(policy, [], 0, policy.limit);
    var burst := [] + Repeat(0, policy.limit);
    AdmissibleExtend(policy, burst, policy.lockMs);
    times := burst + [policy.lockMs];
  }

  /** The counter stays within the limit in every admissible history exactly when the lock outlasts the window. */
  lemma CounterBoundIffLockOutlastsWindow(policy: ThrottlePolicy)
    ensures (forall times | Admissible(policy, times) :: After(policy, times, |times|).failures <= policy.limit)
       <==> policy.lockMs > policy.windowMs
  {
    if policy.lockMs > policy.windowMs {
      forall times | Admissible(policy, times) ensures After(policy, times, |times|).failures <= policy.limit {
        CounterNeverExceedsLimit(policy, times, |times|);
      }
    } else {
      var times := ShortLockOverflows(policy);
    }
  }

  // ----- a lock that fits in the window -----

  /** No stretch of one window length holds more failures than the bound. */
  predicate WithinBound(policy: ThrottlePolicy, times: seq<Time>) {
    forall i, j | 0 <= i <= j < |times| && times[j] - times[i] <= policy.windowMs :: j - i + 1 <= Bound(policy.limit)
  }

  /** A lock of no length forbids nothing. */
  lemma {:induction false} NoLockAllowsAll(policy: ThrottlePolicy, n: nat)
    requires policy.lockMs == 0
    ensures Admissible(policy, Repeat(0, n))
  {
    if n > 0 {
      NoLockAllowsAll(policy, n - 1);
      if n > 1 { RecordMeaning(policy, Repeat(0, n - 1), n - 1); }
      AdmissibleExtend(policy, Repeat(0, n - 1), 0);
      assert Repeat(0, n) == Repeat(0, n - 1) + [0];
    }
  }

  /** Where the lock of a full window expires within one window length, a history holds more than the bound: without a
      lock at one instant; for a limit of one with the failure after the lock; for more with limit - 1 failures at the
      end of a window and limit in the next one as soon as the lock expires. */
  lemma ShortLockOverfills(policy: ThrottlePolicy) returns (times: seq<Time>)
    requires policy.lockMs <= policy.windowMs
    ensures Admissible(policy, times) && !WithinBound(policy, times)
  {
    if policy.lockMs == 0 {
      times := Repeat(0, Bound(policy.limit) + 1);
      NoLockAllowsAll(policy, Bound(policy.limit) + 1);
      assert times[|times| - 1] - times[0] == 0;
    } else if policy.limit == 1 {
      OpenWindow(policy, [], 0, 1);
      var first := [] + Repeat(0, 1);
      AdmissibleExtend(policy, first, policy.lockMs);
      times := first + [policy.lockMs];
      assert times[1] - times[0] <= policy.windowMs;
    } else {
      times := FillTwice(policy, policy.limit - 1, policy.windowMs + policy.lockMs);
      assert times[|times| - 1] - times[1] <= policy.windowMs;
    }
  }

  /** Every stretch of one window length stays within the bound, in every admissible history, exactly when the lock
      outlasts the window. */
  lemma WindowBoundIffLockOutlastsWindow(policy: ThrottlePolicy)
    ensures (forall times | Admissible(policy, times) :: WithinBound(policy, times)) <==> policy.lockMs > policy.windowMs
  {
    if policy.lockMs > policy.windowMs {
      forall times | Admissible(policy, times) ensures WithinBound(policy, times) {
        forall i, j | 0 <= i <= j < |times| && times[j] - times[i] <= policy.windowMs ensures j - i + 1 <= Bound(policy.limit) {
          FailuresInAnyWindow(policy, times, i, j);
        }
      }
    } else {
      var times := ShortLockOverfills(policy);
    }
  }
}
