/** The Redis commands the services use, on keys that expire. */
module Redis {
  import opened Wrappers

  // deadline is absolute, in milliseconds; None is a key without a TTL.
  datatype Entry<+V> = Entry(value: V, deadline: Option<int>)

  predicate Alive<V>(e: Option<Entry<V>>, now: int) {
    e.Some? && (e.value.deadline.Some? ==> now < e.value.deadline.value)
  }

  /** PTTL: -2 for a missing key, -1 for a key without a TTL. */
  function Pttl<V>(e: Option<Entry<V>>, now: int): int {
    if !Alive(e, now) then -2
    else if e.value.deadline.None? then -1
    else e.value.deadline.value - now
  }

  /** INCR keeps the TTL of a live key; a missing key starts at 1 without one. */
  function Incr(e: Option<Entry<int>>, now: int): Entry<int> {
    if Alive(e, now) then e.value.(value := e.value.value + 1) else Entry(1, None)
  }

  /** PEXPIRE does nothing to a missing key and deletes one given no time. */
  function PExpire<V>(e: Option<Entry<V>>, ms: int, now: int): Option<Entry<V>> {
    if !Alive(e, now) then e
    else if ms <= 0 then None
    else Some(e.value.(deadline := Some(now + ms)))
  }

  /** One key of a keyspace, whether or not it has expired. */
  function Lookup<V>(keys: map<string, Entry<V>>, k: string): Option<Entry<V>> {
    if k in keys then Some(keys[k]) else None
  }

  /** The keyspace after one key is written, or removed when e is None. */
  function Store<V>(keys: map<string, Entry<V>>, k: string, e: Option<Entry<V>>): (r: map<string, Entry<V>>)
    ensures Lookup(r, k) == e
    ensures forall other :: other != k ==> Lookup(r, other) == Lookup(keys, other)
  {
    if e.Some? then keys[k := e.value] else keys - {k}
  }
}
