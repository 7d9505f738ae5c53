/** The in-process tier: a map with expiry times, changed in place. */
module SessionCache {
  import opened Wrappers
  import opened CacheMember

  datatype L1Entry = L1Entry(value: Value, deps: seq<Hash>, expiresAt: int)

  /** The entries that do not depend on a hash. */
  function Without(store: map<Key, L1Entry>, dep: Hash): map<Key, L1Entry> {
    map k | k in store && dep !in store[k].deps :: store[k]
  }

  predicate Live(store: map<Key, L1Entry>, key: Key, now: int) {
    key in store && now < store[key].expiresAt
  }

  class L1SessionCache {
    var store: map<Key, L1Entry>
    const defaultTtl: int

    constructor (defaultTtl: int)
      ensures store == map[] && this.defaultTtl == defaultTtl
    {
      store, this.defaultTtl := map[], defaultTtl;
    }

    method Set(key: Key, value: Value, deps: seq<Hash>, ttl: Option<int>, now: int)
      modifies this
      ensures store == old(store)[key := L1Entry(value, deps, now + if ttl.Some? then ttl.value else defaultTtl)]
    {
      var expiresAt := now + if ttl.Some? then ttl.value else defaultTtl;
      store := store[key := L1Entry(value, deps, expiresAt)];
    }

    /** Answers only live entries, and forgets an expired one on sight. */
    method Get(key: Key, now: int) returns (r: Option<Value>)
      modifies this
      ensures r == if Live(old(store), key, now) then Some(old(store)[key].value) else None
      ensures store == if Live(old(store), key, now) then old(store) else old(store) - {key}
    {
      if key !in store {
        assert store - {key} == store;
        return None;
      }
      var entry := store[key];
      if now >= entry.expiresAt {
        store := store - {key};
        return None;
      }
      return Some(entry.value);
    }

    method Remove(key: Key) returns (was: bool)
      modifies this
      ensures was == (key in old(store)) && store == old(store) - {key}
    {
      was := key in store;
      store := store - {key};
    }

    /** Visits every key in some order, dropping the dependent ones while it goes. */
    method InvalidateHash(dep: Hash) returns (removed: nat)
      modifies this
      ensures store == Without(old(store), dep)
      ensures removed + |store| == |old(store)|
    {
      ghost var before := store;
      var left := store.Keys;
      removed := 0;
      while left != {}
        invariant left <= store.Keys
        invariant forall k :: k in store <==> k in before && (k in left || dep !in before[k].deps)
        invariant forall k :: k in store ==> store[k] == before[k]
        invariant removed + |store| == |before|
        decreases left
      {
        var key :| key in left;
        left := left - {key};
        if dep in store[key].deps {
          Shrinks(store, key);
          store := store - {key};
          removed := removed + 1;
        }
      }
    }
  }

  lemma Shrinks(store: map<Key, L1Entry>, key: Key)
    requires key in store
    ensures |store - {key}| + 1 == |store|
  {
    assert (store - {key}).Keys == store.Keys - {key};
    assert |store.Keys| == |store| && |(store - {key}).Keys| == |store - {key}|;
  }
}
