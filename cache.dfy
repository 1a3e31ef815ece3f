/** The generic TTL cache of pkg/cache/cache.go: a map from keys to items that
    carry an absolute expiry instant. The wall clock is an explicit `now`
    argument (nanoseconds); the lock is left out, every operation is atomic. */
module TtlCache {
  import opened Wrappers

  /** A stored value and the instant after which it is expired. */
  datatype Item<V> = Item(value: V, expiry: int) {
    /** Expiry is strict: an item is still live at exactly its expiry instant. */
    predicate IsExpired(now: int): (expired: bool)
      ensures now <= expiry ==> !expired
      ensures now == expiry + 1 ==> expired
    {
      now > expiry
    }
  }

  /** A lookup of `key` at `now` finds it: present and not expired. */
  predicate Hit<K, V>(m: map<K, Item<V>>, key: K, now: int) {
    key in m && !m[key].IsExpired(now)
  }

  /** The map after `Set(key, value, ttl)` at `now`. */
  function AfterSet<K, V>(m: map<K, Item<V>>, key: K, value: V, ttl: int, now: int): (m': map<K, Item<V>>)
    ensures key in m' && m'[key] == Item(value, now + ttl)
    ensures m'.Keys == m.Keys + {key}
    ensures forall k :: k in m && k != key ==> m'[k] == m[k]
  {
    m[key := Item(value, now + ttl)]
  }

  /** The map after a `Get(key)` at `now`: an expired hit is evicted, nothing else changes. */
  function AfterGet<K, V>(m: map<K, Item<V>>, key: K, now: int): (m': map<K, Item<V>>)
    ensures key in m' <==> Hit(m, key, now)
    ensures m'.Keys <= m.Keys
    ensures forall k :: k in m && k != key ==> k in m'
    ensures forall k :: k in m' ==> m'[k] == m[k]
  {
    if key in m && m[key].IsExpired(now) then m - {key} else m
  }

  /** The map after deleting `key` (used by `Remove` and `Pop`). */
  function Without<K, V>(m: map<K, Item<V>>, key: K): (m': map<K, Item<V>>)
    ensures m'.Keys == m.Keys - {key}
    ensures forall k :: k in m' ==> m'[k] == m[k]
  {
    m - {key}
  }

  /** The map a sweep at `now` leaves: exactly the live entries, unchanged. */
  function Unexpired<K, V>(m: map<K, Item<V>>, now: int): (m': map<K, Item<V>>)
    ensures forall k :: k in m' ==> Hit(m, k, now) && m'[k] == m[k]
    ensures forall k :: k in m && !m[k].IsExpired(now) ==> k in m'
  {
    map k | k in m && !m[k].IsExpired(now) :: m[k]
  }

  /** The state of a sweep that has still to visit the keys in `pending`. */
  ghost function PartlySwept<K, V>(m: map<K, Item<V>>, pending: set<K>, now: int): map<K, Item<V>>
  {
    map k | k in m && (k in pending || !m[k].IsExpired(now)) :: m[k]
  }

  /** An entry written with `Set` at `now` is found at every instant up to and
      including `now + ttl` and at no later one; in particular a `Get` at the
      same instant finds it even when `ttl == 0`, and does not change the map. */
  lemma SetThenGet<K, V>(m: map<K, Item<V>>, key: K, value: V, ttl: int, now: int, t: int)
    ensures Hit(AfterSet(m, key, value, ttl, now), key, t) <==> t <= now + ttl
    ensures AfterSet(m, key, value, ttl, now)[key].value == value
    ensures t <= now + ttl ==> AfterGet(AfterSet(m, key, value, ttl, now), key, t) == AfterSet(m, key, value, ttl, now)
  {
  }

  /** A key that was never set is never found, and looking it up changes nothing. */
  lemma GetAbsent<K, V>(m: map<K, Item<V>>, key: K, now: int)
    requires key !in m
    ensures !Hit(m, key, now) && AfterGet(m, key, now) == m
  {
  }

  /** Lazy eviction is invisible: after a `Get` at `now`, every lookup at `now`
      or later gives the answer it would have given without that `Get`. */
  lemma LazyEvictionInvisible<K, V>(m: map<K, Item<V>>, key: K, now: int, k: K, t: int)
    requires now <= t
    ensures Hit(AfterGet(m, key, now), k, t) == Hit(m, k, t)
  {
  }

  /** A sweep is invisible to lookups at the same or a later instant, and
      sweeping twice is the same as sweeping once at the later instant. */
  lemma SweepInvisible<K, V>(m: map<K, Item<V>>, now: int, k: K, t: int)
    requires now <= t
    ensures Hit(Unexpired(m, now), k, t) == Hit(m, k, t)
    ensures Unexpired(Unexpired(m, now), t) == Unexpired(m, t)
  {
  }

  /** `Remove` is idempotent. */
  lemma RemoveIdempotent<K, V>(m: map<K, Item<V>>, key: K)
    ensures Without(Without(m, key), key) == Without(m, key)
    ensures key !in m ==> Without(m, key) == m
  {
  }

  /** The key/value store shared by the worker and the request handlers. */
  class Cache<K(==), V(0)> {
    var items: map<K, Item<V>>

    /** `NewCache`: an empty store. The periodic sweep is the `Sweep` method. */
    constructor ()
      ensures items == map[]
    {
      items := map[];
    }

    /** Inserts or overwrites `key` with expiry `now + ttl`; the error result is always nil. */
    method Set(key: K, value: V, ttl: int, now: int) returns (err: Option<Error>)
      modifies this
      ensures items == AfterSet(old(items), key, value, ttl, now)
      ensures err == None
    {
      items := items[key := Item(value, now + ttl)];
      err := None;
    }

    /** Looks `key` up at `now`, deleting it when it has expired. On an expired
        hit the stale value is returned with `found == false`; on a miss the
        value is the zero value of `V`. */
    method Get(key: K, now: int) returns (value: V, found: bool)
      modifies this
      ensures found == Hit(old(items), key, now)
      ensures key in old(items) ==> value == old(items)[key].value
      ensures items == AfterGet(old(items), key, now)
    {
      if key !in items {
        value, found := *, false;  // Go's zero value of V, left unspecified
        return;
      }
      var item := items[key];
      value := item.value;
      if item.IsExpired(now) {
        items := items - {key};
        found := false;
        return;
      }
      found := true;
    }

    /** Deletes `key`; a no-op when it is absent. */
    method Remove(key: K)
      modifies this
      ensures items == Without(old(items), key)
    {
      items := items - {key};
    }

    /** Deletes `key` first, then reports whether the entry was still live. */
    method Pop(key: K, now: int) returns (value: V, found: bool)
      modifies this
      ensures found == Hit(old(items), key, now)
      ensures key in old(items) ==> value == old(items)[key].value
      ensures items == Without(old(items), key)
    {
      if key !in items {
        value, found := *, false;  // Go's zero value of V, left unspecified
        return;
      }
      var item := items[key];
      value := item.value;
      items := items - {key};
      found := !item.IsExpired(now);
    }

    /** One pass of the background sweep at `now`: visits every key and deletes the expired ones. */
    method Sweep(now: int)
      modifies this
      ensures items == Unexpired(old(items), now)
    {
      var pending := items.Keys;
      while pending != {}
        invariant pending <= old(items).Keys
        invariant items == PartlySwept(old(items), pending, now)
        decreases pending
      {
        var key :| key in pending;
        if items[key].IsExpired(now) {
          items := items - {key};
        }
        pending := pending - {key};
      }
    }
  }
}
