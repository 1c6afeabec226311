/**
 * The local tier: a map from key to pool list with a fixed time-to-live of
 * 240 clock units from the moment an entry is written.  Expiry is lazy: an
 * expired entry stays in the map but every lookup treats it as absent.
 */
module LocalCache {

  import opened Wrappers

  /** The stdTTL the cache is created with. */
  const STD_TTL: int := 240

  /** A stored pool list with the instant it was written. */
  datatype Entry<P> = Entry(pools: seq<P>, setAt: int)

  type Entries<P> = map<string, Entry<P>>

  /** An entry is live while less than STD_TTL has passed since it was written. */
  predicate Live<P>(e: Entry<P>, now: int) {
    now - e.setAt < STD_TTL
  }

  /** Lookup at instant `now`: the stored list if present and live, nothing otherwise. */
  function Get<P>(m: Entries<P>, key: string, now: int): Option<seq<P>> {
    if key in m && Live(m[key], now) then Some(m[key].pools) else None
  }

  /** Writing `pools` under `key` at instant `now`. */
  function Set<P>(m: Entries<P>, key: string, pools: seq<P>, now: int): (r: Entries<P>)
    ensures forall t :: Get(r, key, t) == if t - now < STD_TTL then Some(pools) else None
    ensures forall k, t :: k != key ==> Get(r, k, t) == Get(m, k, t)
  {
    m[key := Entry(pools, now)]
  }

  /** Once a lookup misses, every later lookup of that key misses until it is rewritten. */
  lemma ExpiryIsPermanent<P>(m: Entries<P>, key: string, t1: int, t2: int)
    requires t1 <= t2
    requires Get(m, key, t1) == None
    ensures Get(m, key, t2) == None
  {
  }
}
