/**
 * The time-to-live memoisation the dashboard's loaders are wrapped in
 * (`st.cache_data(ttl=...)`): a map from argument key to the value computed
 * for it and the time it was stored. A call whose key has an entry younger
 * than the TTL returns that entry without running the computation; any
 * other call runs it and stores the value only when it succeeded.
 */
module Memo {
  import opened Results

  /** A stored value and the clock reading (in seconds) at which it was stored. */
  datatype Entry<V> = Entry(value: V, storedAt: int)

  /** What one memoised call returns: its result, the cache after it, and whether the body ran. */
  datatype Memoised<K, V> = Memoised(result: Result<V, string>, cache: map<K, Entry<V>>, executed: bool)

  /** An entry stored at `storedAt` is still served at `now` while less than `ttl` seconds have passed. */
  predicate Fresh<V>(e: Entry<V>, now: int, ttl: int)
  {
    now < e.storedAt + ttl
  }

  /**
   * One call of a memoised function with argument key `key` at time `now`.
   * `compute` is what the undecorated function would return (a `Failure`
   * standing for an exception); it is only used on a miss.
   */
  function Call<K, V>(cache: map<K, Entry<V>>, key: K, now: int, ttl: int, compute: Result<V, string>)
    : (m: Memoised<K, V>)
    ensures m.executed <==> !(key in cache && Fresh(cache[key], now, ttl))
    ensures m.executed ==> m.result == compute
    ensures !m.executed ==> key in cache && m.result == Success(cache[key].value) && m.cache == cache
    ensures m.executed && compute.Failure? ==> m.cache == cache
    ensures m.executed && compute.Success? ==> key in m.cache && m.cache[key] == Entry(compute.value, now)
  {
    if key in cache && Fresh(cache[key], now, ttl) then
      Memoised(Success(cache[key].value), cache, false)
    else if compute.Success? then
      Memoised(compute, cache[key := Entry(compute.value, now)], true)
    else
      Memoised(compute, cache, true)
  }

  /** A call only ever stores under its own key: every other entry is left as it was. */
  lemma OtherKeysUntouched<K, V>(cache: map<K, Entry<V>>, key: K, now: int, ttl: int,
                                 compute: Result<V, string>, other: K)
    requires other != key
    ensures var m := Call(cache, key, now, ttl, compute);
            (other in m.cache <==> other in cache) && (other in cache ==> m.cache[other] == cache[other])
  {
  }

  /**
   * A second call with the same key within the TTL of a successful first
   * call returns the first call's value and does not run the body, whatever
   * the body would now return.
   */
  lemma HitWithinTtl<K, V>(cache: map<K, Entry<V>>, key: K, t1: int, t2: int, ttl: int,
                           first: Result<V, string>, second: Result<V, string>)
    requires first.Success?
    requires !(key in cache && Fresh(cache[key], t1, ttl))
    requires t1 <= t2 < t1 + ttl
    ensures var m1 := Call(cache, key, t1, ttl, first);
            var m2 := Call(m1.cache, key, t2, ttl, second);
            !m2.executed && m2.result == first && m2.cache == m1.cache
  {
  }

  /** Once `ttl` seconds have passed since a value was stored, the next call with its key runs the body again. */
  lemma ExpiredEntryIsRecomputed<K, V>(cache: map<K, Entry<V>>, key: K, t1: int, t2: int, ttl: int,
                                       first: Result<V, string>, second: Result<V, string>)
    requires first.Success?
    requires !(key in cache && Fresh(cache[key], t1, ttl))
    requires t2 >= t1 + ttl
    ensures var m1 := Call(cache, key, t1, ttl, first);
            var m2 := Call(m1.cache, key, t2, ttl, second);
            m2.executed && m2.result == second
  {
  }

  /** An exception is never cached: the next call with the same key runs the body again. */
  lemma FailureIsNotCached<K, V>(cache: map<K, Entry<V>>, key: K, t1: int, t2: int, ttl: int,
                                 first: Result<V, string>, second: Result<V, string>)
    requires first.Failure?
    requires !(key in cache && Fresh(cache[key], t1, ttl))
    requires t1 <= t2
    ensures var m1 := Call(cache, key, t1, ttl, first);
            var m2 := Call(m1.cache, key, t2, ttl, second);
            m1.result == first && m2.executed && m2.result == second
  {
  }
}
