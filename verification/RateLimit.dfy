/** The fixed-window rate limiter: one Redis counter per key that lives for one window from its
    first request. */
module RateLimit {
  import opened Wrappers

  /** Redis drops a key when the clock has passed its expiry time. */
  datatype Counter = Counter(count: Positive, expireAt: int)

  type Positive = n: nat | 1 <= n witness 1

  function Visible(c: Option<Counter>, now: int): Option<Counter> {
    if c.Some? && c.value.expireAt < now then None else c
  }

  /** The number INCR answers. */
  function Count(c: Option<Counter>, now: int): Positive {
    var seen := Visible(c, now);
    if seen.None? then 1 else seen.value.count + 1
  }

  /** INCR, and PEXPIRE when the key is new; a window without a millisecond in it makes PEXPIRE
      delete the key at once. */
  function Hit(c: Option<Counter>, now: int, window: int): Option<Counter> {
    var seen := Visible(c, now);
    if seen.Some? then Some(Counter(seen.value.count + 1, seen.value.expireAt))
    else if window <= 0 then None
    else Some(Counter(1, now + window))
  }

  class Limiter {
    var key: Option<Counter>

    constructor ()
      ensures key == None
    {
      key := None;
    }

    /** `ttl` is the answer of PTTL, -2 when there is no key. */
    method RateLimitScript(now: int, window: int) returns (current: nat, ttl: int)
      modifies this
      ensures key == Hit(old(key), now, window) && current == Count(old(key), now)
      ensures ttl == if key.Some? then key.value.expireAt - now else -2
    {
      if key.Some? && key.value.expireAt < now {
        key := None;
      }
      current := if key.Some? then key.value.count + 1 else 1;
      key := Some(Counter(current, if key.Some? then key.value.expireAt else now));
      if current == 1 {
        key := if window <= 0 then None else Some(Counter(1, now + window));
      }
      ttl := if key.Some? then key.value.expireAt - now else -2;
    }

    method Limit(now: int, window: int, max: int) returns (admitted: bool)
      modifies this
      ensures key == Hit(old(key), now, window)
      ensures admitted <==> Count(old(key), now) <= max
      ensures admitted <==> Admitted(old(key), [now], window, max) == 1
    {
      var count, _ := RateLimitScript(now, window);
      admitted := count <= max;
    }
  }

  /** How many of these requests are admitted, starting from a counter. */
  function Admitted(c: Option<Counter>, times: seq<int>, window: int, max: int): nat
    decreases |times|
  {
    if times == [] then 0
    else
      (if Count(c, times[0]) <= max then 1 else 0) + Admitted(Hit(c, times[0], window), times[1..], window, max)
  }

  predicate InOrder(times: seq<int>) {
    forall i, j :: 0 <= i < j < |times| ==> times[i] <= times[j]
  }

  function Rest(c: Counter, max: int): nat {
    if c.count <= max then max - c.count else 0
  }

  function AtMost(max: int): nat {
    if max <= 0 then 0 else max
  }

  /** Within one life of the counter only what is left of the maximum is admitted. */
  lemma {:induction false} OneWindow(c: Counter, times: seq<int>, window: int, max: int)
    requires forall i :: 0 <= i < |times| ==> times[i] <= c.expireAt
    ensures Admitted(Some(c), times, window, max) <= Rest(c, max)
    decreases |times|
  {
    if times != [] {
      OneWindow(Hit(Some(c), times[0], window).value, times[1..], window, max);
    }
  }

  /** A request that finds no counter starts one that outlives the interval. */
  lemma NewWindow(c: Option<Counter>, times: seq<int>, window: int, max: int)
    requires InOrder(times) && times != [] && 1 <= window && Visible(c, times[0]).None?
    requires times[|times| - 1] <= times[0] + window
    ensures Admitted(c, times, window, max) <= AtMost(max)
  {
    OneWindow(Hit(c, times[0], window).value, times[1..], window, max);
  }

  lemma {:induction false} TwoWindows(c: Counter, times: seq<int>, window: int, max: int)
    requires InOrder(times) && times != [] && 1 <= window && times[|times| - 1] <= times[0] + window
    ensures Admitted(Some(c), times, window, max) <= AtMost(max) + Rest(c, max)
    decreases |times|
  {
    if c.expireAt < times[0] {
      NewWindow(Some(c), times, window, max);
    } else if |times| > 1 {
      TwoWindows(Hit(Some(c), times[0], window).value, times[1..], window, max);
    } else {
      OneWindow(c, times, window, max);
    }
  }

  /** Requests that come after others, all within one window of the first of them. */
  predicate Interval(before: seq<int>, times: seq<int>, window: int) {
    InOrder(before + times) && times != [] && times[|times| - 1] <= times[0] + window
  }

  function Bound(max: int): nat {
    if max <= 0 then 0 else 2 * max - 1
  }

  /** Whatever came before, any interval as long as the window admits at most twice the
      maximum less one: two windows meet in it, and the request that opened the older one lies
      outside or is alone with its own window. */
  lemma IntervalBound(before: seq<int>, times: seq<int>, window: int, max: int)
    requires 1 <= window && Interval(before, times, window)
    ensures Admitted(After(before, window), times, window, max) <= if max <= 0 then 0 else 2 * max - 1
  {
    assert InOrder(times) by {
      forall i, j | 0 <= i < j < |times| ensures times[i] <= times[j] {
        assert (before + times)[|before| + i] == times[i] && (before + times)[|before| + j] == times[j];
      }
    }
    if After(before, window).None? {
      NewWindow(None, times, window, max);
    } else {
      TwoWindows(After(before, window).value, times, window, max);
    }
  }

  /** The counter after a history that began without one. */
  function After(times: seq<int>, window: int): Option<Counter>
    decreases |times|
  {
    if times == [] then None
    else Hit(After(times[..|times| - 1], window), times[|times| - 1], window)
  }

  /** Without a window there is never a counter, so every request is the first one. */
  lemma {:induction false} NoWindowNoLimit(times: seq<int>, window: int, max: int)
    requires window <= 0
    ensures Admitted(None, times, window, max) == if 1 <= max then |times| else 0
    decreases |times|
  {
    if times != [] {
      NoWindowNoLimit(times[1..], window, max);
    }
  }

  ghost predicate Limits(window: int, max: int) {
    forall before: seq<int>, times: seq<int> :: Interval(before, times, window) ==>
      Admitted(After(before, window), times, window, max) <= Bound(max)
  }

  /** The limiter limits if and only if the window has at least one millisecond, or nothing is
      to be admitted anyway; Window.Milliseconds() is 0 for every shorter window. */
  lemma LimitsIffWindow(window: int, max: int)
    requires 0 <= window
    ensures Limits(window, max) <==> 1 <= window || max <= 0
  {
    if 1 <= window {
      forall before: seq<int>, times: seq<int> | Interval(before, times, window)
        ensures Admitted(After(before, window), times, window, max) <= Bound(max)
      {
        IntervalBound(before, times, window, max);
      }
    } else if max <= 0 {
      forall before: seq<int>, times: seq<int> | Interval(before, times, window)
        ensures Admitted(After(before, window), times, window, max) <= Bound(max)
      {
        NoCounter(before, window);
        NoWindowNoLimit(times, window, max);
      }
    } else {
      var times := Burst(0, 2 * max);
      assert Interval([], times, window) by {
        assert [] + times == times;
      }
      NoWindowNoLimit(times, window, max);
      assert After([], window) == None;
      assert Admitted(After([], window), times, window, max) > Bound(max);
    }
  }

  lemma {:induction false} NoCounter(times: seq<int>, window: int)
    requires window <= 0
    ensures After(times, window) == None
    decreases |times|
  {
    if times != [] {
      NoCounter(times[..|times| - 1], window);
    }
  }

  function Burst(t: int, n: nat): seq<int> {
    seq(n, _ => t)
  }

  lemma {:induction false} BurstAdmitted(c: Counter, t: int, n: nat, window: int, max: int)
    requires t <= c.expireAt && c.count + n <= max
    ensures Admitted(Some(c), Burst(t, n), window, max) == n
    ensures AfterBurst(c, t, n, window) == Some(Counter(c.count + n, c.expireAt))
    decreases n
  {
    if 0 < n {
      assert Burst(t, n)[1..] == Burst(t, n - 1);
      BurstAdmitted(Hit(Some(c), t, window).value, t, n - 1, window, max);
    }
  }

  /** The counter after a burst within its life. */
  function AfterBurst(c: Counter, t: int, n: nat, window: int): Option<Counter>
    requires t <= c.expireAt
    decreases n
  {
    if n == 0 then Some(c) else AfterBurst(Hit(Some(c), t, window).value, t, n - 1, window)
  }

  lemma {:induction false} AdmittedConcat(c: Counter, t: int, n: nat, rest: seq<int>, window: int, max: int)
    requires t <= c.expireAt
    ensures Admitted(Some(c), Burst(t, n) + rest, window, max)
         == Admitted(Some(c), Burst(t, n), window, max) + Admitted(AfterBurst(c, t, n, window), rest, window, max)
    decreases n
  {
    if n == 0 {
      assert Burst(t, 0) + rest == rest;
    } else {
      assert Burst(t, n)[1..] == Burst(t, n - 1);
      assert (Burst(t, n) + rest)[1..] == Burst(t, n - 1) + rest;
      AdmittedConcat(Hit(Some(c), t, window).value, t, n - 1, rest, window, max);
    }
  }

  /** The bound is reached: one request, then max - 1 at the end of its window, then max right
      after it. */
  lemma BoundIsReached(window: int, max: int)
    requires 1 <= window && 1 <= max
    ensures
      var times := Burst(window, max - 1) + Burst(window + 1, max);
      && Interval([0], times, window)
      && Admitted(After([0], window), times, window, max) == 2 * max - 1
  {
    assert [0][..0] == [];
    var c := Counter(1, window);
    assert After([0], window) == Some(c);
    BurstAdmitted(c, window, max - 1, window, max);
    AdmittedConcat(c, window, max - 1, Burst(window + 1, max), window, max);
    NextBurst(Counter(max, window), window, max);
  }

  /** Right after the window the whole maximum is admitted again. */
  lemma NextBurst(c: Counter, window: int, max: int)
    requires 1 <= window && 1 <= max
    ensures Admitted(Some(c), Burst(c.expireAt + 1, max), window, max) == max
  {
    var t := c.expireAt + 1;
    assert Burst(t, max)[1..] == Burst(t, max - 1);
    BurstAdmitted(Counter(1, t + window), t, max - 1, window, max);
  }
}
