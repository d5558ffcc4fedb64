/** The fixed-window request rate limiter (src/api/rate-limiter.ts), over whole traces of requests. */
module RateLimiter {
  import opened Prelude

  datatype Window = Window(count: nat, windowStart: int)

  type Table = map<string, Window>

  datatype Limits = Limits(maxRequests: nat, windowMs: int) {
    /** A window is opened by an admitted request, so even a limit of 0 admits one. */
    function PerWindow(): nat {
      if maxRequests == 0 then 1 else maxRequests
    }
  }

  // ------------------------------------------------------------------ one request

  /** The window of `key` that still counts at time `now`. */
  function Live(l: Limits, t: Table, key: string, now: int): Option<Window> {
    if key in t && now - t[key].windowStart < l.windowMs then Some(t[key]) else None
  }

  /** None when the request is admitted, else the whole seconds to wait. */
  function RetryAfter(l: Limits, t: Table, key: string, now: int): Option<int> {
    match Live(l, t, key, now)
    case None => None
    case Some(w) => if w.count >= l.maxRequests then Some((w.windowStart + l.windowMs - now + 999) / 1000) else None
  }

  function Admits(l: Limits, t: Table, key: string, now: int): bool {
    RetryAfter(l, t, key, now).None?
  }

  function AfterRequest(l: Limits, t: Table, key: string, now: int): Table {
    match Live(l, t, key, now)
    case None => t[key := Window(1, now)]
    case Some(w) => if w.count >= l.maxRequests then t else t[key := Window(w.count + 1, w.windowStart)]
  }

  /** The table without the windows that have expired. */
  function Swept(l: Limits, t: Table, now: int): Table {
    map k | k in t && now - t[k].windowStart < l.windowMs :: t[k]
  }

  class RequestRateLimiter {
    var requests: Table
    const limits: Limits

    constructor (maxRequests: nat, windowMs: int)
      ensures requests == map[] && limits == Limits(maxRequests, windowMs)
    {
      requests := map[];
      limits := Limits(maxRequests, windowMs);
    }

    method ConsumeWithRetryAfter(key: string, now: int) returns (retryAfter: Option<int>)
      modifies this
      ensures retryAfter == RetryAfter(limits, old(requests), key, now)
      ensures requests == AfterRequest(limits, old(requests), key, now)
    {
      if key !in requests || now - requests[key].windowStart >= limits.windowMs {
        requests := requests[key := Window(1, now)];
        return None;
      }
      var entry := requests[key];
      if entry.count >= limits.maxRequests {
        return Some((entry.windowStart + limits.windowMs - now + 999) / 1000);
      }
      requests := requests[key := entry.(count := entry.count + 1)];
      return None;
    }

    method Consume(key: string, now: int) returns (allowed: bool)
      modifies this
      ensures allowed == Admits(limits, old(requests), key, now)
      ensures requests == AfterRequest(limits, old(requests), key, now)
    {
      var retryAfter := ConsumeWithRetryAfter(key, now);
      allowed := retryAfter.None?;
    }

    method Cleanup(now: int)
      modifies this
      ensures requests == Swept(limits, old(requests), now)
    {
      var todo := requests.Keys;
      while todo != {}
        invariant todo <= old(requests).Keys
        invariant requests.Keys <= old(requests).Keys
        invariant forall k :: k in requests ==> requests[k] == old(requests)[k]
        invariant forall k :: k in todo ==> k in requests
        invariant forall k :: k in old(requests) && k !in todo ==>
                    (k in requests <==> now - old(requests)[k].windowStart < limits.windowMs)
        decreases todo
      {
        var key :| key in todo;
        if now - requests[key].windowStart >= limits.windowMs {
          requests := requests - {key};
        }
        todo := todo - {key};
      }
    }
  }

  /**
   * The advice is good and no better can be given: a refused request made again after that many
   * seconds, with no other in between, is admitted, and after fewer whole seconds it is refused.
   */
  lemma RetryAfterIsExact(l: Limits, t: Table, key: string, now: int, q: int)
    requires RetryAfter(l, t, key, now).Some? && q >= 0
    ensures AfterRequest(l, t, key, now) == t
    ensures RetryAfter(l, t, key, now).value >= 1
    ensures Admits(l, t, key, now + 1000 * q) <==> q >= RetryAfter(l, t, key, now).value
  {
    var left := t[key].windowStart + l.windowMs - now;
    assert Live(l, t, key, now + 1000 * q).Some? <==> 1000 * q < left;
  }

  // ------------------------------------------------------------------ traces

  datatype Op = Request(key: string, now: int) | Cleanup(now: int)

  /** The clock never runs backwards, from `start` on. */
  predicate Ticking(ops: seq<Op>, start: int) {
    ops == [] || (start <= ops[0].now && Ticking(ops[1..], ops[0].now))
  }

  function AfterOp(l: Limits, t: Table, op: Op): Table {
    match op
    case Request(key, now) => AfterRequest(l, t, key, now)
    case Cleanup(now) => Swept(l, t, now)
  }

  /** The decision on each request of a trace, in order. */
  function Decisions(l: Limits, t: Table, ops: seq<Op>): seq<Option<int>>
    decreases ops
  {
    if ops == [] then []
    else
      var rest := Decisions(l, AfterOp(l, t, ops[0]), ops[1..]);
      if ops[0].Request? then [RetryAfter(l, t, ops[0].key, ops[0].now)] + rest else rest
  }

  function WithoutCleanups(ops: seq<Op>): seq<Op> {
    if ops == [] then []
    else if ops[0].Cleanup? then WithoutCleanups(ops[1..])
    else [ops[0]] + WithoutCleanups(ops[1..])
  }

  /** Two tables that give every key the same live window from `now` on. */
  ghost predicate Agree(l: Limits, t: Table, u: Table, now: int) {
    forall k :: Live(l, t, k, now) == Live(l, u, k, now)
  }

  lemma AgreeLater(l: Limits, t: Table, u: Table, now: int, later: int)
    requires Agree(l, t, u, now) && now <= later
    ensures Agree(l, t, u, later)
  {
    forall k ensures Live(l, t, k, later) == Live(l, u, k, later) {
      assert Live(l, t, k, now) == Live(l, u, k, now);
    }
  }

  lemma AgreeAfterRequest(l: Limits, t: Table, u: Table, key: string, now: int)
    requires Agree(l, t, u, now)
    ensures RetryAfter(l, t, key, now) == RetryAfter(l, u, key, now)
    ensures Agree(l, AfterRequest(l, t, key, now), AfterRequest(l, u, key, now), now)
  {
    assert Live(l, t, key, now) == Live(l, u, key, now);
    forall k ensures Live(l, AfterRequest(l, t, key, now), k, now) == Live(l, AfterRequest(l, u, key, now), k, now) {
      assert Live(l, t, k, now) == Live(l, u, k, now);
    }
  }

  lemma {:induction false} AgreeingDecisions(l: Limits, t: Table, u: Table, ops: seq<Op>, start: int)
    requires Ticking(ops, start) && Agree(l, t, u, start)
    ensures Decisions(l, t, ops) == Decisions(l, u, WithoutCleanups(ops))
    decreases ops
  {
    if ops != [] {
      var now := ops[0].now;
      AgreeLater(l, t, u, start, now);
      if ops[0].Cleanup? {
        assert forall k :: Live(l, Swept(l, t, now), k, now) == Live(l, t, k, now);
        AgreeingDecisions(l, Swept(l, t, now), u, ops[1..], now);
      } else {
        AgreeAfterRequest(l, t, u, ops[0].key, now);
        AgreeingDecisions(l, AfterOp(l, t, ops[0]), AfterOp(l, u, ops[0]), ops[1..], now);
        assert WithoutCleanups(ops)[1..] == WithoutCleanups(ops[1..]);
      }
    }
  }

  /** Cleanups, wherever they fall in a trace, never change a later decision. */
  lemma CleanupIsInvisible(l: Limits, t: Table, ops: seq<Op>, start: int)
    requires Ticking(ops, start)
    ensures Decisions(l, t, ops) == Decisions(l, t, WithoutCleanups(ops))
  {
    AgreeingDecisions(l, t, t, ops, start);
  }

  // ------------------------------------------------------------------ how many are admitted

  /** How many requests of `key` a trace admits at times from `lo` until before `hi`. */
  function AdmittedIn(l: Limits, t: Table, ops: seq<Op>, key: string, lo: int, hi: int): nat
    decreases ops
  {
    if ops == [] then 0
    else
      (if ops[0] == Request(key, ops[0].now) && Admits(l, t, key, ops[0].now) && lo <= ops[0].now < hi then 1 else 0) +
      AdmittedIn(l, AfterOp(l, t, ops[0]), ops[1..], key, lo, hi)
  }

  /** The table as requests up to time `now` can leave it. */
  ghost predicate Consistent(l: Limits, t: Table, now: int) {
    forall k :: k in t ==> t[k].windowStart <= now && 1 <= t[k].count <= l.PerWindow()
  }

  lemma ConsistentAfter(l: Limits, t: Table, op: Op, start: int)
    requires Consistent(l, t, start) && start <= op.now
    ensures Consistent(l, AfterOp(l, t, op), op.now)
  {
  }

  /** The most requests of `key` that can still be admitted between `a` and `a + windowMs`, seen from time `now`. */
  function Room(l: Limits, t: Table, key: string, a: int, now: int): int {
    var m := l.PerWindow();
    if now >= a + l.windowMs then 0
    else if now < a then 2 * m - 1
    else if key !in t then m
    else if t[key].windowStart >= a then m - t[key].count
    else m - t[key].count + m
  }

  lemma RoomSpent(l: Limits, t: Table, op: Op, key: string, a: int, start: int)
    requires Consistent(l, t, start) && start <= op.now
    ensures (if op == Request(key, op.now) && Admits(l, t, key, op.now) && a <= op.now < a + l.windowMs then 1 else 0)
              + Room(l, AfterOp(l, t, op), key, a, op.now)
         <= Room(l, t, key, a, start)
  {
    var u := AfterOp(l, t, op);
    if op.Request? && op.key != key {
      assert key in u <==> key in t;
    }
  }

  lemma {:induction false} AdmittedAtMostRoom(l: Limits, t: Table, ops: seq<Op>, key: string, a: int, start: int)
    requires Consistent(l, t, start) && Ticking(ops, start)
    ensures AdmittedIn(l, t, ops, key, a, a + l.windowMs) <= Max(0, Room(l, t, key, a, start))
    decreases ops
  {
    if ops != [] {
      ConsistentAfter(l, t, ops[0], start);
      RoomSpent(l, t, ops[0], key, a, start);
      AdmittedAtMostRoom(l, AfterOp(l, t, ops[0]), ops[1..], key, a, ops[0].now);
    }
  }

  /**
   * Over any trace, in any span of one window's length, fewer than twice the limit is admitted per
   * key: a span can meet two windows, and the request that opened the older one lies before it.
   */
  lemma FewerThanTwicePerSpan(l: Limits, ops: seq<Op>, key: string, a: int, start: int)
    requires Ticking(ops, start)
    ensures AdmittedIn(l, map[], ops, key, a, a + l.windowMs) < 2 * l.PerWindow()
  {
    AdmittedAtMostRoom(l, map[], ops, key, a, start);
  }

  /** From the request that opens a window until that window ends, at most the limit is admitted. */
  lemma AtMostLimitPerWindow(l: Limits, t: Table, ops: seq<Op>, key: string, openedAt: int, start: int)
    requires Consistent(l, t, start) && start <= openedAt && Ticking(ops, openedAt)
    requires Live(l, t, key, openedAt).None? && l.windowMs > 0
    ensures AdmittedIn(l, t, [Request(key, openedAt)] + ops, key, openedAt, openedAt + l.windowMs) <= l.PerWindow()
  {
    var op := Request(key, openedAt);
    var all := [op] + ops;
    assert all[0] == op && all[1..] == ops;
    ConsistentAfter(l, t, op, start);
    AdmittedAtMostRoom(l, AfterOp(l, t, op), ops, key, openedAt, openedAt);
  }

  function Burst(key: string, now: int, n: nat): seq<Op> {
    if n == 0 then [] else [Request(key, now)] + Burst(key, now, n - 1)
  }

  /** A burst that fits what is left of a window is admitted whole. */
  lemma {:induction false} BurstAdmitted(
    l: Limits, t: Table, key: string, now: int, n: nat, rest: seq<Op>, lo: int, hi: int)
    requires Live(l, t, key, now).Some? && t[key].count + n <= l.maxRequests && lo <= now < hi
    ensures AdmittedIn(l, t, Burst(key, now, n) + rest, key, lo, hi) ==
            n + AdmittedIn(l, t[key := Window(t[key].count + n, t[key].windowStart)], rest, key, lo, hi)
    decreases n
  {
    var ops := Burst(key, now, n) + rest;
    if n == 0 {
      assert ops == rest && t[key := t[key]] == t;
    } else {
      var u := AfterOp(l, t, Request(key, now));
      assert u == t[key := Window(t[key].count + 1, t[key].windowStart)];
      assert ops[0] == Request(key, now) && ops[1..] == Burst(key, now, n - 1) + rest;
      BurstAdmitted(l, u, key, now, n - 1, rest, lo, hi);
      assert u[key := Window(u[key].count + (n - 1), u[key].windowStart)] ==
             t[key := Window(t[key].count + n, t[key].windowStart)];
    }
  }

  /** A request that opens a window, and all that window still admits, at once. */
  function WholeWindow(l: Limits, key: string, now: int): seq<Op> {
    [Request(key, now)] + Burst(key, now, l.PerWindow() - 1)
  }

  /** A first request, the rest of its window's requests at its very end, and all of the next window's at once. */
  function TwoWindows(l: Limits, key: string): seq<Op> {
    [Request(key, 0)] + (Burst(key, l.windowMs - 1, l.PerWindow() - 1) + WholeWindow(l, key, l.windowMs))
  }

  lemma {:induction false} WholeWindowAdmitted(l: Limits, t: Table, key: string, now: int, lo: int, hi: int)
    requires Live(l, t, key, now).None? && l.windowMs > 0 && lo <= now < hi
    ensures AdmittedIn(l, t, WholeWindow(l, key, now), key, lo, hi) == l.PerWindow()
  {
    var n, u := l.PerWindow() - 1, t[key := Window(1, now)];
    var ops := WholeWindow(l, key, now);
    assert ops[0] == Request(key, now) && ops[1..] == Burst(key, now, n) == Burst(key, now, n) + [];
    assert AfterOp(l, t, ops[0]) == u;
    if n > 0 {
      BurstAdmitted(l, u, key, now, n, [], lo, hi);
    }
  }

  lemma {:induction false} TwoWindowsTick(l: Limits, key: string)
    requires l.windowMs >= 1
    ensures Ticking(TwoWindows(l, key), 0)
  {
    var n, w := l.PerWindow() - 1, l.windowMs;
    var last, ops := WholeWindow(l, key, w), TwoWindows(l, key);
    BurstTicks(key, w, n, []);
    assert last[0] == Request(key, w) && last[1..] == Burst(key, w, n) + [];
    BurstTicks(key, w - 1, n, last);
    assert ops[0] == Request(key, 0) && ops[1..] == Burst(key, w - 1, n) + last;
  }

  /** The bound is reached, for every limit and every window of two milliseconds or more. */
  lemma {:induction false} SpanBoundIsReached(l: Limits, key: string)
    requires l.windowMs >= 2
    ensures Ticking(TwoWindows(l, key), 0)
    ensures AdmittedIn(l, map[], TwoWindows(l, key), key, l.windowMs - 1, 2 * l.windowMs - 1) == 2 * l.PerWindow() - 1
  {
    TwoWindowsTick(l, key);
    var n, w := l.PerWindow() - 1, l.windowMs;
    var last, ops := WholeWindow(l, key, w), TwoWindows(l, key);
    var t := map[key := Window(1, 0)];
    assert ops[0] == Request(key, 0) && ops[1..] == Burst(key, w - 1, n) + last;
    assert AfterOp(l, map[], ops[0]) == t;
    WholeWindowAdmitted(l, t[key := Window(1 + n, 0)], key, w, w - 1, 2 * w - 1);
    hide WholeWindow, Ticking;
    if n > 0 {
      BurstAdmitted(l, t, key, w - 1, n, last, w - 1, 2 * w - 1);
    } else {
      assert Burst(key, w - 1, n) + last == last && t[key := Window(1, 0)] == t;
    }
  }

  lemma {:induction false} BurstTicks(key: string, now: int, n: nat, rest: seq<Op>)
    requires Ticking(rest, now)
    ensures Ticking(Burst(key, now, n) + rest, now)
  {
    var ops := Burst(key, now, n) + rest;
    if n == 0 {
      assert ops == rest;
    } else {
      assert ops[0] == Request(key, now) && ops[1..] == Burst(key, now, n - 1) + rest;
      BurstTicks(key, now, n - 1, rest);
    }
  }
}
