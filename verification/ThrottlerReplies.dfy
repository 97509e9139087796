/** What one call under a rate limit is answered and leaves behind, told in milliseconds. */
module ThrottlerReplies {
  import opened Wrappers
  import opened Redis
  import opened Throttler
  import opened ThrottlerTraces

  /** The whole seconds that cover so many milliseconds. */
  predicate Covers(seconds: int, ms: int) { 1000 * (seconds - 1) < ms <= 1000 * seconds }

  /** The key is there until its deadline, and not at it. */
  predicate Live(e: Option<Entry<int>>, now: int) {
    e.Some? && e.value.deadline.Some? && now < e.value.deadline.value
  }

  function Left(e: Option<Entry<int>>, now: int): int { if Live(e, now) then e.value.deadline.value - now else 0 }

  function Counted(b: Bucket, now: int): int { if Live(b.hits, now) then b.hits.value.value else 0 }

  /** Under a block nothing changes, and the caller is told how long window and block still last. */
  lemma BlockedCall(b: Bucket, p: Policy, now: int)
    requires WellFormed(b) && Live(b.block, now)
    ensures var (b', r) := Hit(b, p, now);
            && b' == b && r.isBlocked && r.totalHits == Counted(b, now)
            && Covers(r.timeToExpire, Left(b.hits, now)) && Covers(r.timeToBlockExpire, Left(b.block, now))
  {
  }

  /**
   * Otherwise the call is counted, in the window that is open or one that opens now; it is let
   * through within the limit, and past it a block begins.
   */
  lemma CountedCall(b: Bucket, p: Policy, now: int)
    requires WellFormed(b) && !Live(b.block, now)
    ensures var (b', r) := Hit(b, p, now);
            var closes := if Live(b.hits, now) then b.hits.value.deadline.value else now + p.ttl;
            && b'.hits == Some(Entry(Counted(b, now) + 1, Some(closes))) && r.totalHits == Counted(b, now) + 1
            && Covers(r.timeToExpire, closes - now)
            && (r.isBlocked <==> Counted(b, now) + 1 > p.limit)
            && (if r.isBlocked then
                  b'.block == Some(Entry(1, Some(now + p.blockDuration)))
                      && Covers(r.timeToBlockExpire, p.blockDuration)
                else b'.block == b.block && r.timeToBlockExpire == 0)
  {
  }

  lemma {:induction false} StaysWellFormed(b: Bucket, p: Policy, times: seq<int>)
    requires WellFormed(b)
    ensures WellFormed(After(b, p, times))
    decreases |times|
  {
    if times != [] {
      StaysWellFormed(Hit(b, p, times[0]).0, p, times[1..]);
    }
  }

  /** The buckets the two laws are about are all there are: calls leave nothing else behind. */
  lemma EveryCallIsAnswered(p: Policy, times: seq<int>, now: int)
    ensures WellFormed(After(EMPTY, p, times))
    ensures var b := After(EMPTY, p, times);
            Hit(b, p, now).1.isBlocked <==> Live(b.block, now) || Counted(b, now) >= p.limit
  {
    StaysWellFormed(EMPTY, p, times);
    var b := After(EMPTY, p, times);
    if Live(b.block, now) {
      BlockedCall(b, p, now);
    } else {
      CountedCall(b, p, now);
    }
  }
}
