/** What a rate limit lets through, over any sequence of calls on one key. */
module ThrottlerTraces {
  import opened Wrappers
  import opened Redis
  import opened Throttler

  ghost predicate Sorted(times: seq<int>) {
    forall i, j | 0 <= i <= j < |times| :: times[i] <= times[j]
  }

  /** The bucket after a sequence of calls. */
  function After(b: Bucket, p: Policy, times: seq<int>): Bucket
    decreases |times|
  {
    if times == [] then b else After(Hit(b, p, times[0]).0, p, times[1..])
  }

  /** How many of the calls made at a time in [lo, hi) are let through. */
  function Admitted(b: Bucket, p: Policy, times: seq<int>, lo: int, hi: int): nat
    decreases |times|
  {
    if times == [] then 0
    else
      var (b', r) := Hit(b, p, times[0]);
      (if lo <= times[0] < hi && !r.isBlocked then 1 else 0) + Admitted(b', p, times[1..], lo, hi)
  }

  /** Every counter written by the script has counted something and has a TTL; every block expires. */
  ghost predicate WellFormed(b: Bucket) {
    && (b.hits.Some? ==> b.hits.value.value >= 1 && b.hits.value.deadline.Some?)
    && (b.block.Some? ==> b.block.value.deadline.Some?)
  }

  function Max(a: int, b: int): int { if a < b then b else a }

  lemma {:induction false} NoneAfter(b: Bucket, p: Policy, times: seq<int>, lo: int, hi: int)
    requires Sorted(times) && times != [] && times[0] >= hi
    ensures Admitted(b, p, times, lo, hi) == 0
    decreases times
  {
    if |times| > 1 {
      NoneAfter(Hit(b, p, times[0]).0, p, times[1..], lo, hi);
    }
  }

  /** While a counter key lives, only what is left of its limit is admitted. */
  lemma {:induction false} WindowBudget(b: Bucket, p: Policy, times: seq<int>, lo: int, hi: int)
    requires Sorted(times) && WellFormed(b) && b.hits.Some? && hi <= b.hits.value.deadline.value
    ensures Admitted(b, p, times, lo, hi) <= Max(0, p.limit - b.hits.value.value)
    decreases times
  {
    if times == [] {
    } else if times[0] >= hi {
      NoneAfter(b, p, times, lo, hi);
    } else {
      WindowBudget(Hit(b, p, times[0]).0, p, times[1..], lo, hi);
    }
  }

  /** The call that opens a window, and every later call before the window closes. */
  lemma WindowBound(b: Bucket, p: Policy, times: seq<int>)
    requires Sorted(times) && times != [] && WellFormed(b)
    requires Hit(b, p, times[0]).0.hits == Some(Entry(1, Some(times[0] + p.ttl)))
    requires !Alive(b.block, times[0])
    ensures Admitted(b, p, times, times[0], times[0] + p.ttl) <= p.limit
  {
    WindowBudget(Hit(b, p, times[0]).0, p, times[1..], times[0], times[0] + p.ttl);
  }

  /** A span as long as a window meets at most the rest of one window and a whole second one. */
  lemma {:induction false} SpanFromHere(b: Bucket, p: Policy, times: seq<int>, lo: int, hi: int)
    requires Sorted(times) && WellFormed(b) && hi <= lo + p.ttl
    requires times != [] ==> lo <= times[0]
    ensures Admitted(b, p, times, lo, hi) <=
            p.limit + if times != [] && Alive(b.hits, times[0]) then Max(0, p.limit - b.hits.value.value) else 0
    decreases times
  {
    if times == [] {
    } else if times[0] >= hi {
      NoneAfter(b, p, times, lo, hi);
    } else {
      var (b', r) := Hit(b, p, times[0]);
      if r.isBlocked || Alive(b.hits, times[0]) {
        SpanFromHere(b', p, times[1..], lo, hi);
      } else {
        WindowBudget(b', p, times[1..], lo, hi);
      }
    }
  }

  lemma {:induction false} SpanBudget(b: Bucket, p: Policy, times: seq<int>, lo: int, hi: int)
    requires Sorted(times) && WellFormed(b) && hi <= lo + p.ttl
    ensures Admitted(b, p, times, lo, hi) <= Max(0, 2 * p.limit - 1)
    decreases times
  {
    if times == [] || lo <= times[0] {
      SpanFromHere(b, p, times, lo, hi);
    } else {
      SpanBudget(Hit(b, p, times[0]).0, p, times[1..], lo, hi);
    }
  }

  /** Any half-open span of ttl milliseconds admits at most 2 * limit - 1 calls. */
  lemma SpanBound(p: Policy, times: seq<int>, lo: int)
    requires Sorted(times)
    ensures Admitted(EMPTY, p, times, lo, lo + p.ttl) <= Max(0, 2 * p.limit - 1)
  {
    SpanBudget(EMPTY, p, times, lo, lo + p.ttl);
  }

  // ---- The span bound is attained ----

  function Burst(n: nat, t: int): seq<int> { seq(n, _ => t) }

  lemma {:induction false} Split(b: Bucket, p: Policy, xs: seq<int>, ys: seq<int>, lo: int, hi: int)
    ensures After(b, p, xs + ys) == After(After(b, p, xs), p, ys)
    ensures Admitted(b, p, xs + ys, lo, hi) == Admitted(b, p, xs, lo, hi) + Admitted(After(b, p, xs), p, ys, lo, hi)
    decreases |xs|
  {
    if xs == [] {
      assert xs + ys == ys;
    } else {
      assert (xs + ys)[1..] == xs[1..] + ys;
      Split(Hit(b, p, xs[0]).0, p, xs[1..], ys, lo, hi);
    }
  }

  /** A burst inside a live window, within its limit and with no block ever set. */
  lemma {:induction false} BurstWithinLimit(b: Bucket, p: Policy, n: nat, t: int, lo: int, hi: int)
    requires b.block.None? && WellFormed(b) && Alive(b.hits, t) && b.hits.value.value + n <= p.limit
    ensures After(b, p, Burst(n, t)) == Bucket(Some(b.hits.value.(value := b.hits.value.value + n)), None)
    ensures Admitted(b, p, Burst(n, t), lo, hi) == if lo <= t < hi then n else 0
    decreases n
  {
    if n > 0 {
      assert Burst(n, t)[1..] == Burst(n - 1, t);
      BurstWithinLimit(Hit(b, p, t).0, p, n - 1, t, lo, hi);
    }
  }

  /** A burst that opens its own window. */
  lemma BurstOpening(b: Bucket, p: Policy, n: nat, t: int, lo: int, hi: int)
    requires b.block.None? && WellFormed(b) && !Alive(b.hits, t) && 1 <= n <= p.limit
    ensures After(b, p, Burst(n, t)) == Bucket(Some(Entry(n, Some(t + p.ttl))), None)
    ensures Admitted(b, p, Burst(n, t), lo, hi) == if lo <= t < hi then n else 0
  {
    assert Burst(n, t)[1..] == Burst(n - 1, t);
    BurstWithinLimit(Hit(b, p, t).0, p, n - 1, t, lo, hi);
  }

  function WorstCase(p: Policy): seq<int> {
    Burst(1, 0) + Burst(if p.limit == 0 then 0 else p.limit - 1, p.ttl - 1) + Burst(p.limit, p.ttl)
  }

  /** One call, and the rest of its window's limit in the window's last millisecond. */
  lemma FirstWindow(p: Policy, lo: int, hi: int)
    requires p.limit >= 1 && p.ttl >= 2 && lo == p.ttl - 1 < hi
    ensures var xs, ys := Burst(1, 0), Burst(p.limit - 1, lo);
            && After(EMPTY, p, xs + ys) == Bucket(Some(Entry(p.limit, Some(p.ttl))), None)
            && Admitted(EMPTY, p, xs + ys, lo, hi) == p.limit - 1
  {
    var xs, ys := Burst(1, 0), Burst(p.limit - 1, lo);
    BurstOpening(EMPTY, p, 1, 0, lo, hi);
    Split(EMPTY, p, xs, ys, lo, hi);
    BurstWithinLimit(After(EMPTY, p, xs), p, p.limit - 1, lo, lo, hi);
  }

  /** The bound is met by every window longer than the clock's one millisecond. */
  lemma SpanBoundIsTight(p: Policy)
    requires p.limit >= 1 && p.ttl >= 2
    ensures Sorted(WorstCase(p))
    ensures Admitted(EMPTY, p, WorstCase(p), p.ttl - 1, p.ttl - 1 + p.ttl) == 2 * p.limit - 1
  {
    var lo, hi := p.ttl - 1, p.ttl - 1 + p.ttl;
    var first := Burst(1, 0) + Burst(p.limit - 1, lo);
    FirstWindow(p, lo, hi);
    Split(EMPTY, p, first, Burst(p.limit, p.ttl), lo, hi);
    BurstOpening(After(EMPTY, p, first), p, p.limit, p.ttl, lo, hi);
  }

  /** A window of one millisecond is a span of its own, and admits no more than its limit. */
  lemma {:induction false} ShortestWindow(b: Bucket, p: Policy, times: seq<int>, lo: int)
    requires p.ttl == 1 && Sorted(times) && WellFormed(b)
    requires b.hits.Some? ==> b.hits.value.deadline.value <= lo
    ensures Admitted(b, p, times, lo, lo + p.ttl) <= p.limit
    decreases times
  {
    if times == [] || lo <= times[0] {
      SpanFromHere(b, p, times, lo, lo + p.ttl);
    } else {
      ShortestWindow(Hit(b, p, times[0]).0, p, times[1..], lo);
    }
  }

  // ---- Blocks ----

  /** The bucket at or after time `last`, when a block outlives the window it ends. */
  ghost predicate BlockInv(b: Bucket, p: Policy, last: int) {
    && WellFormed(b)
    && (b.hits.Some? ==> b.hits.value.deadline.value <= last + p.ttl && b.hits.value.value <= p.limit + 1)
    && (b.hits.Some? && b.hits.value.value == p.limit + 1 ==>
          b.block.Some? && b.hits.value.deadline.value <= b.block.value.deadline.value)
    && (Alive(b.block, last) ==>
          && b.hits.Some? && b.hits.value.value == p.limit + 1
          && b.hits.value.deadline.value <= b.block.value.deadline.value)
  }

  lemma {:induction false} BlockInvHolds(b: Bucket, p: Policy, times: seq<int>, last: int)
    requires p.blockDuration >= p.ttl
    requires BlockInv(b, p, last) && Sorted([last] + times)
    ensures BlockInv(After(b, p, times), p, ([last] + times)[|times|])
    decreases |times|
  {
    if times != [] {
      assert times == ([last] + times)[1..] && ([last] + times)[0] <= ([last] + times)[1];
      assert [times[0]] + times[1..] == times;
      BlockInvHolds(Hit(b, p, times[0]).0, p, times[1..], times[0]);
    }
  }

  lemma BlockInvReached(p: Policy, times: seq<int>)
    requires p.blockDuration >= p.ttl && Sorted(times) && times != []
    ensures BlockInv(After(EMPTY, p, times), p, times[|times| - 1])
  {
    var last := times[0];
    BlockInvHolds(EMPTY, p, times, last);
    assert ([last] + times)[|times|] == times[|times| - 1];
  }

  /** The counter is held at limit + 1 exactly when a block lasts as long as a window. */
  lemma CounterCeiling(p: Policy)
    ensures (forall times: seq<int> | Sorted(times) ::
               After(EMPTY, p, times).hits.Some? ==> After(EMPTY, p, times).hits.value.value <= p.limit + 1)
            <==> p.blockDuration >= p.ttl
  {
    if p.blockDuration >= p.ttl {
      forall times: seq<int> | Sorted(times) && times != []
        ensures After(EMPTY, p, times).hits.Some? ==> After(EMPTY, p, times).hits.value.value <= p.limit + 1
      {
        BlockInvReached(p, times);
      }
    } else {
      CounterOverrun(p);
    }
  }

  /** With a shorter block the same window is counted past limit + 1. */
  lemma CounterOverrun(p: Policy)
    requires p.blockDuration < p.ttl
    ensures var times := Burst(p.limit, 0) + [0, p.blockDuration];
            && Sorted(times)
            && After(EMPTY, p, times).hits == Some(Entry(p.limit + 2, Some(p.ttl)))
  {
    if p.limit > 0 {
      BurstOpening(EMPTY, p, p.limit, 0, 0, 0);
    }
    Split(EMPTY, p, Burst(p.limit, 0), [0, p.blockDuration], 0, 0);
    var b := After(EMPTY, p, Burst(p.limit, 0));
    var b' := Hit(b, p, 0).0;
    assert [0, p.blockDuration][1..] == [p.blockDuration];
    assert After(b, p, [0, p.blockDuration]) == After(b', p, [p.blockDuration]);
    assert After(b', p, [p.blockDuration]) == Hit(b', p, p.blockDuration).0;
  }

  /** Calls during a block change nothing, and the first call after it starts a new window. */
  lemma FirstCallAfterBlock(p: Policy, times: seq<int>, now: int)
    requires p.limit >= 1 && p.blockDuration >= p.ttl
    requires Sorted(times) && times != [] && times[|times| - 1] <= now
    requires Alive(After(EMPTY, p, times).block, times[|times| - 1])
    ensures var b := After(EMPTY, p, times);
            if Alive(b.block, now) then Hit(b, p, now).0 == b && Hit(b, p, now).1.isBlocked
            else && Hit(b, p, now).0.hits == Some(Entry(1, Some(now + p.ttl)))
                 && Hit(b, p, now).1 == Reply(1, CeilSeconds(p.ttl), false, 0)
  {
    BlockInvReached(p, times);
  }

  /** No sequence of calls leaves a counter that the script has to repair. */
  lemma {:induction false} RepairNeverNeeded(b: Bucket, p: Policy, times: seq<int>, now: int)
    requires WellFormed(b)
    ensures WellFormed(After(b, p, times)) && !NeedsRepair(After(b, p, times), p, now)
    decreases |times|
  {
    if times != [] {
      RepairNeverNeeded(Hit(b, p, times[0]).0, p, times[1..], now);
    }
  }

  // ---- One caller's keys are its own ----

  predicate Nested(a: string, b: string) { a <= b || b <= a }

  /** Two beginnings can be continued to one string exactly when one begins with the other. */
  lemma Continuations(a: string, b: string)
    ensures (forall k: string, k': string :: a + k != b + k') <==> !Nested(a, b)
  {
    if a <= b {
      assert a + b[|a|..] == b + "";
    } else if b <= a {
      assert a + "" == b + a[|b|..];
    } else {
      forall k: string, k': string
        ensures a + k != b + k'
      {
        assert (a + k)[..|a|] == a && (b + k')[..|b|] == b;
      }
    }
  }

  /** Two limiters never count in one key, exactly when neither name and its colon begins with the other. */
  lemma LimitersCountApart(n: string, n': string)
    ensures (forall k: string, k': string :: HitKey(n, k) != HitKey(n', k')) <==> !Nested(n + ":", n' + ":")
  {
    Continuations(n + ":", n' + ":");
    forall k: string, k': string
      ensures HitKey(n, k) == HitKey(n', k') <==> (n + ":") + k == (n' + ":") + k'
    {
      assert HitKey(n, k) == "throttle:" + ((n + ":") + k) && HitKey(n', k') == "throttle:" + ((n' + ":") + k');
      SamePrefix("throttle:", (n + ":") + k, (n' + ":") + k');
    }
  }

  /** No key of one limiter's counters blocks another, exactly when the same holds against "blocked:" and its name. */
  lemma CountsAndBlocksApart(n: string, n': string)
    ensures (forall k: string, k': string :: HitKey(n, k) != BlockKey(n', k')) <==>
              !Nested(n + ":", "blocked:" + n' + ":")
  {
    Continuations(n + ":", "blocked:" + n' + ":");
    forall k: string, k': string
      ensures HitKey(n, k) == BlockKey(n', k') <==> (n + ":") + k == ("blocked:" + n' + ":") + k'
    {
      assert HitKey(n, k) == "throttle:" + ((n + ":") + k);
      assert BlockKey(n', k') == "throttle:" + (("blocked:" + n' + ":") + k');
      SamePrefix("throttle:", (n + ":") + k, ("blocked:" + n' + ":") + k');
    }
  }

  /** Names without a colon, other than "blocked", keep every pair of callers apart. */
  lemma CallersShareNoKey(n: string, k: string, n': string, k': string)
    requires ':' !in n && ':' !in n' && n != "blocked" && n' != "blocked"
    ensures HitKey(n, k) != BlockKey(n', k')
    ensures HitKey(n, k) == HitKey(n', k') || BlockKey(n, k) == BlockKey(n', k') ==> n == n' && k == k'
  {
    assert HitKey(n, k) == "throttle:" + (n + ":" + k);
    assert BlockKey(n, k) == "throttle:blocked:" + (n + ":" + k);
    assert BlockKey(n', k') == "throttle:" + ("blocked" + ":" + (n' + ":" + k'));
    SamePrefix("throttle:", n + ":" + k, n' + ":" + k');
    SamePrefix("throttle:blocked:", n + ":" + k, n' + ":" + k');
    SamePrefix("throttle:", n + ":" + k, "blocked" + ":" + (n' + ":" + k'));
    FirstColon(n, k, n', k');
    FirstColon(n, k, "blocked", n' + ":" + k');
  }

  /** A limiter called "blocked" counts in the keys that block the others. */
  lemma BlockedCollides(n: string, k: string)
    ensures HitKey("blocked", n + ":" + k) == BlockKey(n, k)
  {
    assert "throttle:" + "blocked" + ":" == "throttle:blocked:";
    assert HitKey("blocked", n + ":" + k) == "throttle:blocked:" + (n + ":" + k);
    assert BlockKey(n, k) == "throttle:blocked:" + (n + ":" + k);
  }

  lemma SamePrefix(prefix: string, a: string, b: string)
    ensures prefix + a == prefix + b ==> a == b
  {
    assert a == (prefix + a)[|prefix|..];
    assert b == (prefix + b)[|prefix|..];
  }

  lemma FirstColon(n: string, k: string, n': string, k': string)
    requires ':' !in n && ':' !in n'
    ensures n + ":" + k == n' + ":" + k' ==> n == n' && k == k'
  {
    var s, s' := n + ":" + k, n' + ":" + k';
    assert s[|n|] == ':' && s'[|n'|] == ':';
    assert n == s[..|n|] && n' == s'[..|n'|] && k == s[|n| + 1..] && k' == s'[|n'| + 1..];
    if |n| < |n'| {
      assert s'[|n|] == n'[|n|];
    } else if |n'| < |n| {
      assert s[|n'|] == n[|n'|];
    }
  }
}
