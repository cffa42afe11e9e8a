/** The process-wide TTL cache of useRequest (src/hooks/useRequest/src/utils/cache.ts):
    one record per cache key with the data, the parameters, the time it was
    written and the handle of the timer that will delete it. */
module RequestCache {
  import opened Js
  import opened Timers

  /** What the cache plugin stores and reads back. */
  datatype Cached = Cached(data: Value, params: Value, time: int)

  /** A stored record: the cached data plus its expiry timer, if any. */
  datatype Record = Record(data: Value, params: Value, time: int, timer: Option<nat>) {
    function Data(): Cached { Cached(data, params, time) }
  }

  /** The argument of `clearCache(key?: string | string[])`. */
  datatype ClearArg = NoKey | OneKey(key: string) | Keys(keys: seq<string>)

  /** The keys `clearCache(arg)` deletes: `if (key)` lets an array (even an
      empty one) and a non-empty string through; `undefined` and `""` clear
      the whole store. */
  function Doomed(arg: ClearArg, entries: map<string, Record>): (d: set<string>)
    ensures arg.Keys? ==> d == Elems(arg.keys)
    ensures arg.OneKey? && arg.key != "" ==> d == {arg.key}
    ensures arg.NoKey? || arg == OneKey("") ==> d == entries.Keys
  {
    match arg
    case NoKey => entries.Keys
    case OneKey(k) => if k == "" then entries.Keys else {k}
    case Keys(ks) => Elems(ks)
  }

  function Elems(ks: seq<string>): set<string> {
    set k | k in ks
  }

  /** The expiry handles recorded in the entries of `keys`. */
  function Handles(entries: map<string, Record>, keys: set<string>): set<nat> {
    set k | k in keys && k in entries && entries[k].timer.Some? :: entries[k].timer.value
  }

  class CacheStore {
    var entries: map<string, Record>
    /** The expiry timers; each one's callback is the key it deletes. */
    var timers: Table<string>

    /** Every recorded expiry timer is live and deletes its own key. */
    ghost predicate Valid()
      reads this
    {
      && timers.Valid()
      && forall k | k in entries && entries[k].timer.Some? ::
           entries[k].timer.value in timers.live && timers.live[entries[k].timer.value].callback == k
    }

    /** Every live timer is the one recorded by the entry it would delete, so
        a timer can only ever delete the entry that scheduled it. */
    ghost predicate Tidy()
      reads this
    {
      forall h | h in timers.live ::
        timers.live[h].callback in entries && entries[timers.live[h].callback].timer == Some(h)
    }

    constructor ()
      ensures Valid() && Tidy() && entries == map[]
    {
      entries := map[];
      timers := Empty();
    }

    /** `setCache(key, cacheTime, cachedData)`: cancels the key's previous
        expiry, schedules a new one iff `cacheTime > -1`, and stores the
        record; every other key's entry is unchanged. */
    method SetCache(key: string, cacheTime: int, cached: Cached)
      requires Valid()
      modifies this
      ensures Valid()
      ensures old(Tidy()) ==> Tidy()
      ensures key in entries && entries[key].Data() == cached
      ensures forall k | k != key :: (k in entries <==> k in old(entries)) && (k in entries ==> entries[k] == old(entries)[k])
      ensures var cleared := old(timers).Clear(if key in old(entries) then old(entries)[key].timer else None);
        if cacheTime > -1 then
          var started := cleared.Start(cacheTime, key);
          timers == started.0 && entries[key].timer == Some(started.1)
        else
          timers == cleared && entries[key].timer == None
    {
      var previous := if key in entries then entries[key].timer else None;
      timers := timers.Clear(previous);
      var timer: Option<nat> := None;
      if cacheTime > -1 {
        var started := timers.Start(cacheTime, key);
        timers := started.0;
        timer := Some(started.1);
      }
      entries := entries[key := Record(cached.data, cached.params, cached.time, timer)];
    }

    /** `getCache(key)`: the stored data, or nothing; no side effect. */
    function GetCache(key: string): (r: Option<Cached>)
      reads this
      ensures r.Some? <==> key in entries
      ensures r.Some? ==> r.value == entries[key].Data()
    {
      if key in entries then Some(entries[key].Data()) else None
    }

    /** The expiry timer `h` runs: `cache.delete(key)` for the key it was
        scheduled for. Under `Tidy` that key still holds the record that
        scheduled `h`. */
    method FireExpiry(h: nat)
      requires Valid() && h in timers.live
      modifies this
      ensures Valid()
      ensures old(Tidy()) ==> Tidy()
      ensures var key := old(timers).live[h].callback;
        entries == old(entries) - {key} && timers == old(timers).Fired(h) &&
        (old(Tidy()) ==> key in old(entries) && old(entries)[key].timer == Some(h))
    {
      var key := timers.live[h].callback;
      timers := timers.Fired(h);
      entries := entries - {key};
    }

    /** `clearCache(arg)` as written: the records go, their expiry timers stay. */
    method ClearCacheAsWritten(arg: ClearArg)
      requires Valid()
      modifies this
      ensures Valid() && timers == old(timers)
      ensures entries == old(entries) - Doomed(arg, old(entries))
    {
      match arg
      case Keys(ks) =>
        var i := 0;
        while i < |ks|
          invariant 0 <= i <= |ks| && timers == old(timers)
          invariant entries == old(entries) - Elems(ks[..i])
        {
          assert ks[..i + 1] == ks[..i] + [ks[i]];
          entries := entries - {ks[i]};
          i := i + 1;
        }
        assert ks[..i] == ks;
      case NoKey =>
        entries := map[];
      case OneKey(k) =>
        if k == "" {
          entries := map[];
        } else {
          entries := entries - {k};
        }
    }

    /** `clearCache(arg)` with the fix: each deleted record's expiry timer is
        cancelled with it, so no stale deadline survives its record. */
    method ClearCache(arg: ClearArg)
      requires Valid()
      modifies this
      ensures Valid()
      ensures old(Tidy()) ==> Tidy()
      ensures entries == old(entries) - Doomed(arg, old(entries))
      ensures timers.next == old(timers).next
      ensures timers.live == old(timers).live - Handles(old(entries), Doomed(arg, old(entries)))
    {
      match arg
      case Keys(ks) =>
        ClearKeys(ks);
      case _ =>
        Drop(Doomed(arg, entries));
    }

    /** The records of `doomed` and their expiry timers go at once. */
    method Drop(doomed: set<string>)
      requires Valid()
      modifies this
      ensures Valid()
      ensures old(Tidy()) ==> Tidy()
      ensures entries == old(entries) - doomed
      ensures timers.next == old(timers).next
      ensures timers.live == old(timers).live - Handles(old(entries), doomed)
    {
      timers := Table(timers.live - Handles(entries, doomed), timers.next);
      entries := entries - doomed;
    }

    /** `key.forEach(cacheKey => cache.delete(cacheKey))`, each deletion
        cancelling the deleted record's timer. */
    method ClearKeys(ks: seq<string>)
      requires Valid()
      modifies this
      ensures Valid()
      ensures old(Tidy()) ==> Tidy()
      ensures entries == old(entries) - Elems(ks)
      ensures timers.next == old(timers).next
      ensures timers.live == old(timers).live - Handles(old(entries), Elems(ks))
    {
      ghost var before := entries;
      var i := 0;
      while i < |ks|
        invariant 0 <= i <= |ks| && timers.Valid() && timers.next == old(timers).next
        invariant entries == before - Elems(ks[..i])
        invariant timers.live == old(timers).live - Handles(before, Elems(ks[..i]))
      {
        assert ks[..i + 1] == ks[..i] + [ks[i]];
        ghost var done := Elems(ks[..i]);
        assert (Elems(ks[..i + 1])) == done + {ks[i]};
        if ks[i] in entries {
          timers := timers.Clear(entries[ks[i]].timer);
        } else {
          assert Handles(before, done + {ks[i]}) == Handles(before, done);
        }
        entries := entries - {ks[i]};
        i := i + 1;
      }
      assert ks[..i] == ks;
    }
  }

  /** Re-setting a key cancels its old expiry: the old timer is no longer
      live, so it can never delete the newer entry. */
  method ResetCancelsOldExpiry(key: string, first: Cached, second: Cached) returns (oldTimer: nat, stillLive: bool, latest: Option<Cached>)
    ensures !stillLive && latest == Some(second)
  {
    var c := new CacheStore();
    c.SetCache(key, 1000, first);
    oldTimer := c.entries[key].timer.value;
    c.SetCache(key, 300000, second);
    stillLive := oldTimer in c.timers.live;
    latest := c.GetCache(key);
  }

  /** `cacheTime = -1` schedules nothing, so the entry stays until cleared. */
  method NegativeCacheTimeNeverExpires(key: string, d: Cached) returns (timer: Option<nat>, live: nat)
    ensures timer == None && live == 0
  {
    var c := new CacheStore();
    c.SetCache(key, -1, d);
    timer := c.entries[key].timer;
    live := |c.timers.live|;
  }

  /** The stale-deadline defect of the store as written: clear a key, set it
      again, and the first timer, still live, deletes the newer entry long
      before its own `cacheTime`. */
  method StaleExpiryDeletesNewerEntry(d1: Cached, d2: Cached) returns (present: bool)
    ensures !present
  {
    var c := new CacheStore();
    c.SetCache("user", 1000, d1);
    var stale := c.entries["user"].timer.value;
    c.ClearCacheAsWritten(OneKey("user"));
    c.SetCache("user", 300000, d2);
    assert stale in c.timers.live;
    c.FireExpiry(stale);
    present := "user" in c.entries;
  }

  /** With the corrected `ClearCache` the same sequence keeps the newer
      entry: the first timer is gone, and every live timer belongs to the
      newer record. */
  method ClearedExpiryIsCancelled(d1: Cached, d2: Cached) returns (staleLive: bool, latest: Option<Cached>, tidy: bool)
    ensures !staleLive && latest == Some(d2) && tidy
  {
    var c := new CacheStore();
    c.SetCache("user", 1000, d1);
    var stale := c.entries["user"].timer.value;
    c.ClearCache(OneKey("user"));
    c.SetCache("user", 300000, d2);
    staleLive := stale in c.timers.live;
    latest := c.GetCache("user");
    tidy := forall h | h in c.timers.live :: c.timers.live[h].callback == "user" && c.entries["user"].timer == Some(h);
  }
}
