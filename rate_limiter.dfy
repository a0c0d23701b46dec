/**
 * The sliding-window rate limiter of the browser client's `rateLimitDelay`
 * (src/app.js:215-225): the queue of recent request instants, the wait it
 * imposes, the code's update of the queue, and the corrected update, with
 * the history of dispatch instants it keeps spaced.
 */
module RateLimiter {
  /** `ApiConfig.rateLimit`: requests allowed per window. */
  const RATE_LIMIT := 3
  /** The rate limiter's window, in milliseconds. */
  const WINDOW_MS := 1000

  predicate Sorted(s: seq<int>) {
    forall i, j :: 0 <= i <= j < |s| ==> s[i] <= s[j]
  }

  /** Any RATE_LIMIT + 1 consecutive dispatch instants span at least WINDOW_MS. */
  predicate AtMostThreePerWindow(d: seq<int>) {
    forall i :: 0 <= i && i + RATE_LIMIT < |d| ==> d[i] + WINDOW_MS <= d[i + RATE_LIMIT]
  }

  /** `queue.filter(time => now - time < 1000)`. */
  function Recent(queue: seq<int>, now: int): (r: seq<int>)
    ensures |r| <= |queue|
  {
    if queue == [] then []
    else (if now - queue[0] < WINDOW_MS then [queue[0]] else []) + Recent(queue[1..], now)
  }

  /** The filter keeps exactly the timestamps less than a window before `now`. */
  lemma {:induction false} RecentIsFilter(queue: seq<int>, now: int)
    ensures forall t :: t in Recent(queue, now) <==> t in queue && now - t < WINDOW_MS
  {
    if queue != [] {
      RecentIsFilter(queue[1..], now);
      assert queue == [queue[0]] + queue[1..];
    }
  }

  /** The wait before the request: until the oldest timestamp in the window leaves it. */
  function Delay(recent: seq<int>, now: int): int {
    if |recent| >= RATE_LIMIT then WINDOW_MS - (now - recent[0]) else 0
  }

  /** On a sorted queue the filter keeps a suffix: exactly the timestamps inside the window. */
  lemma {:induction false} RecentOfSorted(queue: seq<int>, now: int) returns (m: nat)
    requires Sorted(queue)
    ensures m <= |queue| && Recent(queue, now) == queue[m..]
    ensures forall j :: 0 <= j < m ==> now - queue[j] >= WINDOW_MS
    ensures forall j :: m <= j < |queue| ==> now - queue[j] < WINDOW_MS
  {
    if queue == [] {
      m := 0;
    } else {
      var m' := RecentOfSorted(queue[1..], now);
      if |queue| > 1 {
        assert queue[0] <= queue[1];
      }
      if now - queue[0] < WINDOW_MS {
        m := 0;
        assert Recent(queue, now) == [queue[0]] + queue[1..];
      } else {
        m := m' + 1;
        assert Recent(queue, now) == queue[1..][m'..];
      }
    }
  }

  /**
   * The wait is positive exactly when RATE_LIMIT timestamps remain in the
   * window, and never longer than the window, for timestamps not in the future.
   */
  lemma DelayBounds(queue: seq<int>, now: int)
    requires forall t :: t in queue ==> t <= now
    ensures 0 <= Delay(Recent(queue, now), now) <= WINDOW_MS
    ensures Delay(Recent(queue, now), now) > 0 <==> |Recent(queue, now)| >= RATE_LIMIT
  {
    var r := Recent(queue, now);
    RecentIsFilter(queue, now);
    if |r| >= RATE_LIMIT {
      assert r[0] in r;
    }
  }

  /**
   * `rateLimitDelay` as written: the wait, and the new queue, which holds the
   * timestamps still inside the window followed by `now`, the instant the
   * call began rather than the instant the request leaves.
   */
  function RateLimitAsWritten(queue: seq<int>, now: int): (r: (int, seq<int>))
    ensures |r.1| >= 1 && r.1[|r.1| - 1] == now
  {
    var recent := Recent(queue, now);
    (Delay(recent, now), recent + [now])
  }

  /**
   * The code's queue update drops every timestamp a window or more older
   * than `now`, keeps the others, and always appends `now`.
   */
  lemma AsWrittenQueue(queue: seq<int>, now: int)
    ensures var q := RateLimitAsWritten(queue, now).1;
      q[|q| - 1] == now && forall t :: t in q[..|q| - 1] <==> t in queue && now - t < WINDOW_MS
  {
    var recent := Recent(queue, now);
    RecentIsFilter(queue, now);
    assert (recent + [now])[..|recent|] == recent;
  }

  /**
   * The instants at which requests leave when `rateLimitDelay` as written is
   * called at the instants `nows`, one call after the other.
   */
  function RunAsWritten(queue: seq<int>, nows: seq<int>): (d: seq<int>)
    ensures |d| == |nows|
    decreases |nows|
  {
    if nows == [] then []
    else
      var step := RateLimitAsWritten(queue, nows[0]);
      [nows[0] + step.0] + RunAsWritten(step.1, nows[1..])
  }

  /** The calls at instant `t`: three go at once, the fourth waits a whole window but is queued as `t`. */
  lemma AsWrittenFirstSteps(t: int)
    ensures RateLimitAsWritten([], t) == (0, [t])
    ensures RateLimitAsWritten([t], t) == (0, [t, t])
    ensures RateLimitAsWritten([t, t], t) == (0, [t, t, t])
    ensures RateLimitAsWritten([t, t, t], t) == (WINDOW_MS, [t, t, t, t])
  {
    assert [t, t, t][1..] == [t, t] && [t, t][1..] == [t];
    assert Recent([t], t) == [t];
    assert Recent([t, t], t) == [t, t];
    assert Recent([t, t, t], t) == [t, t, t];
    assert [] + [t] == [t] && [t] + [t] == [t, t] && [t, t] + [t] == [t, t, t] && [t, t, t] + [t] == [t, t, t, t];
  }

  /** The calls at `t + 1000`: every queued `t` has left the window, and none waits. */
  lemma AsWrittenLaterSteps(t: int)
    ensures RateLimitAsWritten([t, t, t, t], t + WINDOW_MS) == (0, [t + WINDOW_MS])
    ensures RateLimitAsWritten([t + WINDOW_MS], t + WINDOW_MS) == (0, [t + WINDOW_MS, t + WINDOW_MS])
    ensures RateLimitAsWritten([t + WINDOW_MS, t + WINDOW_MS], t + WINDOW_MS) ==
      (0, [t + WINDOW_MS, t + WINDOW_MS, t + WINDOW_MS])
  {
    var u := t + WINDOW_MS;
    assert [t, t, t, t][1..] == [t, t, t] && [t, t, t][1..] == [t, t] && [t, t][1..] == [t];
    assert Recent([t], u) == [];
    assert Recent([t, t], u) == [];
    assert Recent([t, t, t], u) == [];
    assert Recent([t, t, t, t], u) == [];
    assert [u, u][1..] == [u];
    assert Recent([u], u) == [u];
    assert Recent([u, u], u) == [u, u];
    assert [] + [u] == [u] && [u] + [u] == [u, u] && [u, u] + [u] == [u, u, u];
  }

  /** One call of the run: the request leaves after the wait, and the rest of the run starts from the new queue. */
  lemma RunStep(queue: seq<int>, now: int, later: seq<int>, delay: int, queue': seq<int>, rest: seq<int>)
    requires RateLimitAsWritten(queue, now) == (delay, queue')
    requires RunAsWritten(queue', later) == rest
    ensures RunAsWritten(queue, [now] + later) == [now + delay] + rest
  {
    assert ([now] + later)[1..] == later;
  }

  /** The run from the fourth call on: each of the four requests leaves at `t + 1000`. */
  lemma AsWrittenFromFourth(t: int)
    ensures var u := t + WINDOW_MS; RunAsWritten([t, t, t], [t, u, u, u]) == [u, u, u, u]
  {
    var u := t + WINDOW_MS;
    AsWrittenFirstSteps(t);
    AsWrittenLaterSteps(t);
    RunStep([u, u], u, [], 0, [u, u, u], []);
    assert [u] + [] == [u];
    RunStep([u], u, [u], 0, [u, u], [u]);
    assert [u] + [u] == [u, u];
    RunStep([t, t, t, t], u, [u, u], 0, [u], [u, u]);
    assert [u] + [u, u] == [u, u, u];
    RunStep([t, t, t], t, [u, u, u], WINDOW_MS, [t, t, t, t], [u, u, u]);
    assert [t] + [u, u, u] == [t, u, u, u];
    assert [t + WINDOW_MS] + [u, u, u] == [u, u, u, u];
  }

  /**
   * Four calls at `t` and three at `t + 1000`, each made once the previous
   * request has left: the fourth request waits until `t + 1000` but is queued
   * as `t`, so it leaves the window at once, and four requests leave at
   * `t + 1000`.
   */
  lemma AsWrittenLetsFourThrough(t: int)
    ensures var u := t + WINDOW_MS;
      var nows := [t, t, t, t, u, u, u];
      var d := RunAsWritten([], nows);
      d == [t, t, t, u, u, u, u] &&
      (forall i :: 0 <= i < |d| - 1 ==> d[i] <= nows[i + 1]) &&
      !AtMostThreePerWindow(d)
  {
    AsWrittenRun(t);
    var u := t + WINDOW_MS;
    var d := [t, t, t, u, u, u, u];
    assert d[3] + WINDOW_MS > d[3 + RATE_LIMIT];
  }

  /** The dispatch instants of the whole run. */
  lemma AsWrittenRun(t: int)
    ensures var u := t + WINDOW_MS; RunAsWritten([], [t, t, t, t, u, u, u]) == [t, t, t, u, u, u, u]
  {
    var u := t + WINDOW_MS;
    AsWrittenFromFourth(t);
    AsWrittenFirstSteps(t);
    RunStep([t, t], t, [t, u, u, u], 0, [t, t, t], [u, u, u, u]);
    assert [t] + [t, u, u, u] == [t, t, u, u, u];
    assert [t + 0] + [u, u, u, u] == [t, u, u, u, u];
    RunStep([t], t, [t, t, u, u, u], 0, [t, t], [t, u, u, u, u]);
    assert [t] + [t, t, u, u, u] == [t, t, t, u, u, u];
    assert [t + 0] + [t, u, u, u, u] == [t, t, u, u, u, u];
    RunStep([], t, [t, t, t, u, u, u], 0, [t], [t, t, u, u, u, u]);
    assert [t] + [t, t, t, u, u, u] == [t, t, t, t, u, u, u];
    assert [t + 0] + [t, t, u, u, u, u] == [t, t, t, u, u, u, u];
  }

  /**
   * The step of the corrected limiter. The history `d` is sorted and spaced,
   * its first `dropped` entries lie a window or more before `now`, and the
   * queue, `d[dropped..]`, keeps the entries inside the window from position
   * `m` on. A request leaving after the code's wait keeps the history sorted
   * and spaced.
   */
  lemma SpacingKept(d: seq<int>, dropped: nat, now: int, m: nat)
    requires Sorted(d) && AtMostThreePerWindow(d)
    requires dropped + m <= |d|
    requires forall j :: 0 <= j < |d| ==> d[j] <= now
    requires forall j :: 0 <= j < dropped ==> d[j] + WINDOW_MS <= now
    requires forall j :: dropped <= j < dropped + m ==> now - d[j] >= WINDOW_MS
    requires forall j :: dropped + m <= j < |d| ==> now - d[j] < WINDOW_MS
    ensures 0 <= Delay(d[dropped + m..], now) <= WINDOW_MS
    ensures Sorted(d + [now + Delay(d[dropped + m..], now)])
    ensures AtMostThreePerWindow(d + [now + Delay(d[dropped + m..], now)])
  {
    var n := |d|;
    var k := dropped + m;
    var x := now + Delay(d[k..], now);
    if n > RATE_LIMIT {
      assert d[n - 4] + WINDOW_MS <= d[n - 1];
    }
    if n - k >= RATE_LIMIT {
      assert x == d[n - RATE_LIMIT] + WINDOW_MS;
    } else if n >= RATE_LIMIT {
      assert n - RATE_LIMIT < k;
      assert d[n - RATE_LIMIT] + WINDOW_MS <= now;
    }
    var e := d + [x];
    forall i | 0 <= i && i + RATE_LIMIT < |e|
      ensures e[i] + WINDOW_MS <= e[i + RATE_LIMIT]
    {
      if i + RATE_LIMIT < n {
        assert e[i] == d[i] && e[i + RATE_LIMIT] == d[i + RATE_LIMIT];
      }
    }
  }

  /**
   * The limiter's state against the history `d` of dispatch instants: the
   * queue is the tail of the history; everything older has left the window;
   * nothing was dispatched after `clock`; and no window of WINDOW_MS holds
   * more than RATE_LIMIT dispatches.
   */
  ghost predicate LimiterValid(d: seq<int>, dropped: nat, queue: seq<int>, clock: int) {
    Sorted(d) && AtMostThreePerWindow(d) && IsTail(queue, d, dropped) &&
    (forall j :: 0 <= j < |d| ==> d[j] <= clock) &&
    (forall j :: 0 <= j < dropped ==> d[j] + WINDOW_MS <= clock)
  }

  /** `queue` is `d` from index `k` on, element by element. */
  predicate IsTail(queue: seq<int>, d: seq<int>, k: nat) {
    k <= |d| && |queue| == |d| - k && forall i :: 0 <= i < |queue| ==> queue[i] == d[k + i]
  }

  /**
   * One corrected `rateLimitDelay` keeps the limiter valid: the wait is at
   * most a window, the filter drops the `m` oldest queued instants, and
   * queueing the instant the request leaves extends the history with it.
   */
  lemma LimiterStep(d: seq<int>, dropped: nat, queue: seq<int>, now: int, recent: seq<int>, delay: int)
      returns (m: nat)
    requires LimiterValid(d, dropped, queue, now)
    requires recent == Recent(queue, now) && delay == Delay(recent, now)
    ensures 0 <= delay <= WINDOW_MS
    ensures LimiterValid(d + [now + delay], dropped + m, recent + [now + delay], now + delay)
  {
    m := QueueSplit(d, dropped, queue, now);
    StepFromSplit(d, dropped, now, m, recent);
  }

  /** LimiterStep once the queue is split at `dropped + m`. */
  lemma StepFromSplit(d: seq<int>, dropped: nat, now: int, m: nat, recent: seq<int>)
    requires Sorted(d) && AtMostThreePerWindow(d)
    requires dropped + m <= |d| && recent == d[dropped + m..]
    requires forall j :: 0 <= j < |d| ==> d[j] <= now
    requires forall j :: 0 <= j < dropped ==> d[j] + WINDOW_MS <= now
    requires forall j :: dropped <= j < dropped + m ==> now - d[j] >= WINDOW_MS
    requires forall j :: dropped + m <= j < |d| ==> now - d[j] < WINDOW_MS
    ensures 0 <= Delay(recent, now) <= WINDOW_MS
    ensures LimiterValid(d + [now + Delay(recent, now)], dropped + m, recent + [now + Delay(recent, now)], now + Delay(recent, now))
  {
    SpacingKept(d, dropped, now, m);
    Extended(d, dropped, dropped + m, now, now + Delay(recent, now), recent);
  }

  /** The queue is sorted, so the filter keeps the history from some index on, exactly the instants inside the window. */
  lemma QueueSplit(d: seq<int>, dropped: nat, queue: seq<int>, now: int) returns (m: nat)
    requires Sorted(d) && IsTail(queue, d, dropped)
    ensures dropped + m <= |d| && Recent(queue, now) == d[dropped + m..]
    ensures forall j :: dropped <= j < dropped + m ==> now - d[j] >= WINDOW_MS
    ensures forall j :: dropped + m <= j < |d| ==> now - d[j] < WINDOW_MS
  {
    assert queue == d[dropped..];
    assert Sorted(queue) by {
      assert forall i :: 0 <= i < |queue| ==> queue[i] == d[dropped + i];
    }
    m := RecentOfSorted(queue, now);
    assert queue[m..] == d[dropped + m..];
    forall j | dropped <= j < |d|
      ensures d[j] == queue[j - dropped]
    {
    }
  }

  /**
   * Appending an instant no earlier than `now`, to a history that has left
   * the window before index `k` by `now`, gives a valid limiter.
   */
  lemma Extended(d: seq<int>, dropped: nat, k: nat, now: int, x: int, recent: seq<int>)
    requires dropped <= k <= |d| && Sorted(d + [x]) && AtMostThreePerWindow(d + [x]) && now <= x
    requires recent == d[k..]
    requires forall j :: 0 <= j < |d| ==> d[j] <= now
    requires forall j :: 0 <= j < dropped ==> d[j] + WINDOW_MS <= now
    requires forall j :: dropped <= j < k ==> now - d[j] >= WINDOW_MS
    ensures LimiterValid(d + [x], k, recent + [x], x)
  {
    assert (d + [x])[k..] == recent + [x];
  }

  /** The indices of the dispatches that fall in the window starting at `t`. */
  function InWindow(d: seq<int>, t: int): set<int> {
    set k | 0 <= k < |d| && t <= d[k] < t + WINDOW_MS
  }

  /** The first index at or after `from` whose instant is at least `t`, or `|d|`. */
  function FirstFrom(d: seq<int>, t: int, from: nat): (k: nat)
    requires from <= |d|
    decreases |d| - from
    ensures from <= k <= |d|
    ensures forall j :: from <= j < k ==> d[j] < t
    ensures k < |d| ==> t <= d[k]
  {
    if from == |d| || t <= d[from] then from else FirstFrom(d, t, from + 1)
  }

  /** No window of WINDOW_MS, wherever it starts, holds more than RATE_LIMIT dispatches of a spaced history. */
  lemma WindowCount(d: seq<int>, t: int)
    requires Sorted(d) && AtMostThreePerWindow(d)
    ensures |InWindow(d, t)| <= RATE_LIMIT
  {
    var k := FirstFrom(d, t, 0);
    var w := InWindow(d, t);
    forall j | 0 <= j < |d| && j >= k + RATE_LIMIT
      ensures d[j] >= t + WINDOW_MS
    {
      assert d[k] + WINDOW_MS <= d[k + RATE_LIMIT] <= d[j];
    }
    assert w <= {k, k + 1, k + 2};
    SubsetCard(w, {k, k + 1, k + 2});
  }

  lemma SubsetCard(a: set<int>, b: set<int>)
    requires a <= b
    ensures |a| <= |b|
  {
    assert b == a + (b - a);
  }
}
