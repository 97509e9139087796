/** Fixed-window rate limiting with a block, one atomic script per call. */
module Throttler {
  import opened Wrappers
  import opened Redis

  // Redis refuses SET .. PX with a non-positive expiry, and a window has a length.
  datatype RawPolicy = Policy(ttl: int, limit: nat, blockDuration: int)
  type Policy = p: RawPolicy | p.ttl > 0 && p.blockDuration > 0 witness Policy(1, 0, 1)

  // Seconds for the two times, milliseconds everywhere else.
  datatype Reply = Reply(totalHits: int, timeToExpire: int, isBlocked: bool, timeToBlockExpire: int)

  // The two keys of one caller: the counter and the block.
  datatype Bucket = Bucket(hits: Option<Entry<int>>, block: Option<Entry<int>>)

  const EMPTY := Bucket(None, None)

  function CeilSeconds(ms: int): int { -(-ms / 1000) }

  /** What one call finds and leaves behind. */
  function Hit(b: Bucket, p: Policy, now: int): (Bucket, Reply) {
    if Pttl(b.block, now) > 0 then
      var left := Pttl(b.hits, now);
      (b, Reply(if Alive(b.hits, now) then b.hits.value.value else 0,
                CeilSeconds(if left < 0 then 0 else left), true, CeilSeconds(Pttl(b.block, now))))
    else
      var n := Incr(b.hits, now).value;
      var kept := Alive(b.hits, now) && n != 1 && b.hits.value.deadline.Some?;
      var deadline := if kept then b.hits.value.deadline.value else now + p.ttl;
      var over := n > p.limit;
      (Bucket(Some(Entry(n, Some(deadline))),
              if over then Some(Entry(1, Some(now + p.blockDuration))) else b.block),
       Reply(n, CeilSeconds(deadline - now), over, if over then CeilSeconds(p.blockDuration) else 0))
  }

  /** The counter key has no TTL after INCR and the first PEXPIRE. */
  predicate NeedsRepair(b: Bucket, p: Policy, now: int) {
    Pttl(b.block, now) <= 0 &&
    var e := Some(Incr(b.hits, now));
    Pttl(if e.value.value == 1 then PExpire(e, p.ttl, now) else e, now) < 0
  }

  class RedisThrottlerStorage {
    var keys: map<string, Entry<int>>

    constructor ()
      ensures keys == map[]
    {
      keys := map[];
    }

    ghost function BucketOf(hitKey: string, blockKey: string): Bucket
      reads this
    {
      Bucket(Lookup(keys, hitKey), Lookup(keys, blockKey))
    }

    method Increment(throttlerName: string, key: string, p: Policy, now: int) returns (r: Reply)
      modifies this
      ensures var hitKey, blockKey := HitKey(throttlerName, key), BlockKey(throttlerName, key);
              && (BucketOf(hitKey, blockKey), r) == Hit(old(BucketOf(hitKey, blockKey)), p, now)
              && forall k :: k != hitKey && k != blockKey ==> Lookup(keys, k) == Lookup(old(keys), k)
    {
      var hitKey, blockKey := HitKey(throttlerName, key), BlockKey(throttlerName, key);
      assert |blockKey| == |hitKey| + |"blocked:"|;
      var blockPttl := Pttl(Lookup(keys, blockKey), now);
      if blockPttl > 0 {
        var hits := if Alive(Lookup(keys, hitKey), now) then keys[hitKey].value else 0;
        var hitPttl := Pttl(Lookup(keys, hitKey), now);
        if hitPttl < 0 {
          hitPttl := 0;
        }
        return Reply(hits, CeilSeconds(hitPttl), true, CeilSeconds(blockPttl));
      }

      keys := Store(keys, hitKey, Some(Incr(Lookup(keys, hitKey), now)));
      var totalHits := keys[hitKey].value;
      if totalHits == 1 {
        keys := Store(keys, hitKey, PExpire(Lookup(keys, hitKey), p.ttl, now));
      }

      var timeToExpire := Pttl(Lookup(keys, hitKey), now);
      if timeToExpire < 0 {
        keys := Store(keys, hitKey, PExpire(Lookup(keys, hitKey), p.ttl, now));
        timeToExpire := p.ttl;
      }

      var isBlocked, timeToBlockExpire := false, 0;
      if totalHits > p.limit {
        keys := Store(keys, blockKey, Some(Entry(1, Some(now + p.blockDuration))));
        isBlocked := true;
        timeToBlockExpire := CeilSeconds(p.blockDuration);
      }
      r := Reply(totalHits, CeilSeconds(timeToExpire), isBlocked, timeToBlockExpire);
    }
  }

  function HitKey(throttlerName: string, key: string): string {
    "throttle:" + throttlerName + ":" + key
  }

  function BlockKey(throttlerName: string, key: string): string {
    "throttle:blocked:" + throttlerName + ":" + key
  }
}
