/** The process-wide store of in-flight service promises
    (src/hooks/useRequest/src/utils/cachePromise.ts), keyed by cache key.
    A promise is known by its identity, a number. */
module RequestCachePromise {
  import opened Js

  class PromiseStore {
    var promises: map<string, nat>
    /** The settlement callbacks still waiting: the key each was registered
        under and the promise it watches. */
    var watching: set<(string, nat)>

    constructor ()
      ensures promises == map[] && watching == {}
    {
      promises := map[];
      watching := {};
    }

    /** `getCachePromise(key)`: the stored promise, if any; no side effect. */
    function GetCachePromise(key: string): (r: Option<nat>)
      reads this
      ensures r.Some? <==> key in promises
      ensures r.Some? ==> r.value == promises[key]
    {
      if key in promises then Some(promises[key]) else None
    }

    /** `setCachePromise(key, promise)`: stores the identical promise,
        overwriting any earlier one under `key`, and registers a callback
        that deletes `key` once the promise settles. */
    method SetCachePromise(key: string, promise: nat)
      modifies this
      ensures promises == old(promises)[key := promise]
      ensures watching == old(watching) + {(key, promise)}
    {
      promises := promises[key := promise];
      watching := watching + {(key, promise)};
    }

    /** The promise settles, fulfilled or rejected alike: the key is
        deleted whatever promise is stored under it now. */
    method Settle(key: string, promise: nat)
      requires (key, promise) in watching
      modifies this
      ensures promises == old(promises) - {key}
      ensures watching == old(watching) - {(key, promise)}
    {
      promises := promises - {key};
      watching := watching - {(key, promise)};
    }
  }

  /** Setting and then getting a key yields the identical promise, and the
      other keys are untouched. */
  method SetThenGet(key: string, other: string, p: nat, q: nat) returns (got: Option<nat>, gotOther: Option<nat>)
    requires key != other
    ensures got == Some(p) && gotOther == Some(q)
  {
    var store := new PromiseStore();
    store.SetCachePromise(other, q);
    store.SetCachePromise(key, p);
    got := store.GetCachePromise(key);
    gotOther := store.GetCachePromise(other);
  }

  /** Deletion is by key, not by identity: an older promise that settles
      after a newer one was stored under the same key removes the newer. */
  method OlderSettlementRemovesNewer(key: string, older: nat, newer: nat) returns (got: Option<nat>)
    ensures got == None
  {
    var store := new PromiseStore();
    store.SetCachePromise(key, older);
    store.SetCachePromise(key, newer);
    store.Settle(key, older);
    got := store.GetCachePromise(key);
  }
}
