/** The cache plugin of useRequest (src/hooks/useRequest/src/plugins/useCachePlugin.ts):
    it seeds the state from the process-wide cache, answers fresh entries
    without a request, shares one in-flight promise between the instances
    of a key, and writes every result back, notifying the other instances.
    The clock is the `now` parameter. */
module RequestCachePlugin {
  import opened Js
  import opened RequestFetch
  import opened RequestCache
  import opened RequestCachePromise
  import opened RequestCacheSubscribe

  /** The key's listeners once the listener `own`, when there is one, has
      left the list. */
  function Others(listeners: map<string, seq<nat>>, key: string, own: Option<nat>): (r: seq<nat>)
    ensures forall l | l in r :: l in ListOf(listeners, key)
    ensures own.Some? && NoDup(ListOf(listeners, key)) ==> own.value !in r
  {
    if own.Some? then RemoveFirst(ListOf(listeners, key), own.value) else ListOf(listeners, key)
  }

  /** A falsy `cacheKey` (undefined or "") installs no handlers. */
  predicate HasHandlers(cacheKey: Option<string>) {
    cacheKey.Some? && cacheKey.value != ""
  }

  /** The options with their defaults applied: `cacheTime = 300000`,
      `staleTime = 0`. */
  function CacheTimeOf(cacheTime: Option<int>): int { cacheTime.GetOr(5 * 60 * 1000) }
  function StaleTimeOf(staleTime: Option<int>): int { staleTime.GetOr(0) }

  /** An entry written at `time` is fresh at `now`. */
  predicate Fresh(staleTime: int, time: int, now: int) {
    staleTime == -1 || now - time <= staleTime
  }

  /** The `onBefore` answer for what the cache holds under the key. */
  function BeforePatch(entry: Option<Cached>, staleTime: int, now: int): (p: Patch)
    ensures entry.None? ==> p == NoFields
    ensures entry.Some? ==> p.data == Some(entry.value.data) && p.error == Some(Undefined) && p.params.None? && p.stopNow.None?
    ensures entry.Some? && Fresh(staleTime, entry.value.time, now) ==> p.returnNow == Some(true) && p.loading == Some(false)
    ensures entry.Some? && !Fresh(staleTime, entry.value.time, now) ==> p.returnNow.None? && p.loading.None?
  {
    match entry
    case None => NoFields
    case Some(c) =>
      if Fresh(staleTime, c.time, now) then Patch(Some(false), None, Some(c.data), Some(Undefined), None, Some(true))
      else Patch(None, None, Some(c.data), Some(Undefined), None, None)
  }

  /** A fresh entry answers the run at once from the cache, with no service
      call; a stale one shows the cached data while the request goes on. */
  lemma FreshEntryAnswersRun(s: FetchState, params: seq<Value>, c: Cached, staleTime: int, now: int)
    ensures var p := BeforePatch(Some(c), staleTime, now);
      var st := Apply(s, StartPatch(params, Merge([Some(p)])));
      && st.data == c.data && st.error == Undefined && st.params == Arr(params)
      && (Fresh(staleTime, c.time, now) ==> Merge([Some(p)]).returnNow == Some(true) && !st.loading)
      && (!Fresh(staleTime, c.time, now) ==> Merge([Some(p)]).returnNow.None? && st.loading)
  {
    assert Merge([Some(BeforePatch(Some(c), staleTime, now))]) == Assign(NoFields, BeforePatch(Some(c), staleTime, now));
  }

  /** What each listener closure on the bus captured: the closure
      `(d) => fetchInstance.setState({ data: d })` is known by its identity,
      and `owner` gives the engine instance it sets the data of. */
  class Closures {
    var owner: map<nat, Fetch>

    constructor ()
      ensures owner == map[]
    {
      owner := map[];
    }
  }

  /** The instances whose closures are the listeners `ls`, in order. */
  function Owners(owner: map<nat, Fetch>, ls: seq<nat>): (r: seq<Fetch>)
    requires forall l | l in ls :: l in owner
    ensures |r| == |ls| && forall i | 0 <= i < |ls| :: r[i] == owner[ls[i]]
  {
    seq(|ls|, i requires 0 <= i < |ls| => owner[ls[i]])
  }

  /** `n` re-renders. */
  function Renders(n: nat): (r: seq<Event>)
    ensures |r| == n && forall i | 0 <= i < n :: r[i] == Rendered
  {
    seq(n, _ => Rendered)
  }

  /** Every instance of `targets` took `data` as its data, with one
      re-render per closure of it that was called, and nothing else changed. */
  twostate predicate DataDelivered(targets: seq<Fetch>, data: Value)
    reads set f | f in targets
  {
    forall f | f in targets ::
      && f.state == old(f.state).(data := data) && f.count == old(f.count)
      && f.log == old(f.log) + Renders(multiset(targets)[f])
  }

  /** The notified closures run one after another: each calls
      `setState({ data })` on its own instance. */
  method Deliver(targets: seq<Fetch>, data: Value)
    modifies set f | f in targets
    ensures DataDelivered(targets, data)
  {
    var i := 0;
    while i < |targets|
      invariant 0 <= i <= |targets|
      invariant forall f | f in targets ::
        && f.state == (if f in targets[..i] then old(f.state).(data := data) else old(f.state))
        && f.count == old(f.count)
        && f.log == old(f.log) + Renders(multiset(targets[..i])[f])
    {
      var t := targets[i];
      assert targets[..i + 1] == targets[..i] + [t];
      t.SetState(Patch(None, None, Some(data), None, None, None));
      assert Renders(multiset(targets[..i])[t]) + [Rendered] == Renders(multiset(targets[..i + 1])[t]);
      i := i + 1;
    }
    assert targets[..i] == targets;
  }

  class CachePlugin {
    const cacheKey: string
    const cacheTime: int
    const staleTime: int
    const store: CacheStore
    const promises: PromiseStore
    const bus: CacheBus
    const closures: Closures
    const fetch: Fetch
    /** This instance's current listener on the bus. */
    var unSubscribe: Option<nat>
    /** The last promise this instance started itself. */
    var currentPromise: Option<nat>

    /** Every listener of the key is a known closure, and this instance's
        own listener sets this instance's data. */
    ghost predicate Valid()
      reads this, store, bus, closures
    {
      && store.Valid() && bus.Valid()
      && (cacheKey in bus.listeners ==> forall l | l in bus.listeners[cacheKey] :: l in closures.owner)
      && (unSubscribe.Some? ==> cacheKey in bus.listeners && unSubscribe.value in bus.listeners[cacheKey])
      && (unSubscribe.Some? ==> closures.owner[unSubscribe.value] == fetch)
    }

    constructor (cacheKey: string, cacheTime: Option<int>, staleTime: Option<int>,
                 store: CacheStore, promises: PromiseStore, bus: CacheBus, closures: Closures, fetch: Fetch)
      requires HasHandlers(Some(cacheKey)) && store.Valid() && bus.Valid()
      requires cacheKey in bus.listeners ==> forall l | l in bus.listeners[cacheKey] :: l in closures.owner
      ensures Valid() && unSubscribe == None && currentPromise == None
      ensures this.cacheKey == cacheKey && this.cacheTime == CacheTimeOf(cacheTime) && this.staleTime == StaleTimeOf(staleTime)
      ensures this.store == store && this.promises == promises && this.bus == bus && this.fetch == fetch
      ensures this.closures == closures
    {
      this.cacheKey := cacheKey;
      this.cacheTime := CacheTimeOf(cacheTime);
      this.staleTime := StaleTimeOf(staleTime);
      this.store := store;
      this.promises := promises;
      this.bus := bus;
      this.closures := closures;
      this.fetch := fetch;
      unSubscribe := None;
      currentPromise := None;
    }

    /** The creation block: a cached entry's `data` and `params` are written
        straight into the engine's state (no re-render), `loading` is
        cleared only for a fresh entry, and the instance subscribes to the key. */
    method Init(now: int)
      requires Valid() && unSubscribe.None?
      modifies this, fetch, bus, closures
      ensures Valid() && unSubscribe.Some? && unSubscribe.value !in ListOf(old(bus.listeners), cacheKey)
      ensures closures.owner == old(closures.owner)[unSubscribe.value := fetch]
      ensures currentPromise == old(currentPromise)
      ensures bus.listeners == old(bus.listeners)[cacheKey := ListOf(old(bus.listeners), cacheKey) + [unSubscribe.value]]
      ensures fetch.log == old(fetch.log) && fetch.count == old(fetch.count)
      ensures var entry := store.GetCache(cacheKey);
        if entry.None? then fetch.state == old(fetch.state)
        else
          && fetch.state.data == entry.value.data && fetch.state.params == entry.value.params
          && fetch.state.error == old(fetch.state).error
          && fetch.state.loading == (if Fresh(staleTime, entry.value.time, now) then false else old(fetch.state).loading)
    {
      var entry := store.GetCache(cacheKey);
      if entry.Some? {
        fetch.state := fetch.state.(data := entry.value.data, params := entry.value.params);
        if staleTime == -1 || now - entry.value.time <= staleTime {
          fetch.state := fetch.state.(loading := false);
        }
      }
      Resubscribe();
    }

    /** `subscribe(cacheKey, (d) => fetchInstance.setState({ data: d }))`:
        a new closure of this instance joins the end of the key's list and
        becomes this instance's listener. */
    method Resubscribe()
      requires store.Valid() && bus.Valid()
      requires forall l | l in ListOf(bus.listeners, cacheKey) :: l in closures.owner
      modifies this, bus, closures
      ensures Valid() && unSubscribe.Some? && unSubscribe.value !in ListOf(old(bus.listeners), cacheKey)
      ensures currentPromise == old(currentPromise)
      ensures bus.listeners == old(bus.listeners)[cacheKey := ListOf(old(bus.listeners), cacheKey) + [unSubscribe.value]]
      ensures closures.owner == old(closures.owner)[unSubscribe.value := fetch]
    {
      var l := bus.Subscribe(cacheKey);
      closures.owner := closures.owner[l := fetch];
      unSubscribe := Some(l);
    }

    /** `onBefore(params)`. */
    function OnBefore(now: int): (p: Patch)
      reads this, store
      ensures p == BeforePatch(store.GetCache(cacheKey), staleTime, now)
    {
      BeforePatch(store.GetCache(cacheKey), staleTime, now)
    }

    /** `onRequest(service, args)`: a promise stored under the key that this
        instance did not start itself is reused; otherwise the service is
        called (`started` is the promise it returns), remembered, and
        registered in the in-flight store. */
    method OnRequest(started: nat) returns (servicePromise: nat, calledService: bool)
      modifies this, promises
      ensures var shared := promises.GetCachePromise(cacheKey);
        var stored := old(promises.GetCachePromise(cacheKey));
        if stored.Some? && stored != old(currentPromise) then
          && servicePromise == stored.value && !calledService
          && promises.promises == old(promises.promises) && promises.watching == old(promises.watching)
          && currentPromise == old(currentPromise)
        else
          && servicePromise == started && calledService && currentPromise == Some(started)
          && promises.promises == old(promises.promises)[cacheKey := started]
          && promises.watching == old(promises.watching) + {(cacheKey, started)}
      ensures unSubscribe == old(unSubscribe)
    {
      var stored := promises.GetCachePromise(cacheKey);
      if stored.Some? && stored != currentPromise {
        return stored.value, false;
      }
      currentPromise := Some(started);
      promises.SetCachePromise(cacheKey, started);
      servicePromise, calledService := started, true;
    }

    /** The shared tail of `onSuccess` and `onMutate`: unsubscribe, write
        the entry, call the key's remaining listeners with the data (each
        sets it as its own instance's data), resubscribe. */
    method WriteAndNotify(data: Value, params: Value, now: int) returns (notified: seq<nat>)
      requires Valid()
      modifies this, store, bus, closures, closures.owner.Values
      ensures Valid() && unSubscribe.Some? && currentPromise == old(currentPromise)
      ensures store.GetCache(cacheKey) == Some(Cached(data, params, now))
      ensures forall k | k != cacheKey :: store.GetCache(k) == old(store.GetCache(k))
      ensures notified == (if old(unSubscribe).Some? then RemoveFirst(old(bus.listeners)[cacheKey], old(unSubscribe).value)
                           else ListOf(old(bus.listeners), cacheKey))
      ensures old(unSubscribe).Some? ==> old(unSubscribe).value !in notified
      ensures unSubscribe.value !in notified && bus.listeners == old(bus.listeners)[cacheKey := notified + [unSubscribe.value]]
      ensures closures.owner == old(closures.owner)[unSubscribe.value := fetch]
      ensures forall l | l in notified :: l in old(closures.owner)
      ensures DataDelivered(Owners(old(closures.owner), notified), data)
      ensures forall f | f in old(closures.owner).Values && f !in Owners(old(closures.owner), notified) :: unchanged(f)
    {
      notified := WriteThenNotify(data, params, now);
      Resubscribe();
    }

    /** The tail up to `trigger`: the entry is written, and the listeners
        left on the key, all of them closures of other instances, deliver
        the data. */
    method WriteThenNotify(data: Value, params: Value, now: int) returns (notified: seq<nat>)
      requires Valid()
      modifies store, bus, closures.owner.Values
      ensures store.Valid() && bus.Valid()
      ensures store.GetCache(cacheKey) == Some(Cached(data, params, now))
      ensures forall k | k != cacheKey :: store.GetCache(k) == old(store.GetCache(k))
      ensures notified == Others(old(bus.listeners), cacheKey, unSubscribe) == ListOf(bus.listeners, cacheKey)
      ensures bus.listeners == old(bus.listeners) || bus.listeners == old(bus.listeners)[cacheKey := notified]
      ensures unSubscribe.Some? ==> unSubscribe.value !in notified
      ensures forall l | l in notified :: l in closures.owner
      ensures DataDelivered(Owners(closures.owner, notified), data)
      ensures forall f | f in closures.owner.Values && f !in Owners(closures.owner, notified) :: unchanged(f)
    {
      Write(data, params, now);
      notified := Notify(data);
    }

    /** The first half of the tail: this instance's listener leaves the key's
        list, and the entry is written with the data, parameters and time. */
    method Write(data: Value, params: Value, now: int)
      requires Valid()
      modifies store, bus
      ensures store.Valid() && bus.Valid()
      ensures store.GetCache(cacheKey) == Some(Cached(data, params, now))
      ensures forall k | k != cacheKey :: store.GetCache(k) == old(store.GetCache(k))
      ensures ListOf(bus.listeners, cacheKey) == Others(old(bus.listeners), cacheKey, unSubscribe)
      ensures bus.listeners == old(bus.listeners) || bus.listeners == old(bus.listeners)[cacheKey := ListOf(bus.listeners, cacheKey)]
      ensures unSubscribe.Some? ==> unSubscribe.value !in ListOf(bus.listeners, cacheKey)
      ensures forall l | l in ListOf(bus.listeners, cacheKey) :: l in closures.owner
    {
      DropListener();
      store.SetCache(cacheKey, cacheTime, Cached(data, params, now));
    }

    /** `trigger(cacheKey, data)`: every listener of the key is called
        with the data, and each sets it as its own instance's data. */
    method Notify(data: Value) returns (notified: seq<nat>)
      requires forall l | l in ListOf(bus.listeners, cacheKey) :: l in closures.owner
      modifies closures.owner.Values
      ensures unchanged(this, store, bus, closures)
      ensures notified == ListOf(bus.listeners, cacheKey)
      ensures forall l | l in notified :: l in closures.owner
      ensures DataDelivered(Owners(closures.owner, notified), data)
      ensures forall f | f in closures.owner.Values && f !in Owners(closures.owner, notified) :: unchanged(f)
    {
      var calls := bus.Trigger(cacheKey, data);
      notified := seq(|calls|, i requires 0 <= i < |calls| => calls[i].listener);
      assert notified == ListOf(bus.listeners, cacheKey);
      Deliver(Owners(closures.owner, notified), data);
    }

    /** `unSubscribeRef.current?.()`: this instance's listener, when it has
        one, leaves the key's list. */
    method DropListener()
      requires Valid()
      modifies bus
      ensures bus.Valid() && bus.next == old(bus.next)
      ensures unSubscribe.Some? ==>
        bus.listeners == old(bus.listeners)[cacheKey := RemoveFirst(old(bus.listeners)[cacheKey], unSubscribe.value)]
      ensures unSubscribe.None? ==> bus.listeners == old(bus.listeners)
    {
      if unSubscribe.Some? {
        bus.Unsubscribe(cacheKey, unSubscribe.value);
      }
    }

    /** `onSuccess(data, params)`: the result is cached with its parameters
        and time, and every other instance of the key receives `data`. */
    method OnSuccess(data: Value, params: seq<Value>, now: int) returns (notified: seq<nat>)
      requires Valid()
      modifies this, store, bus, closures, closures.owner.Values
      ensures Valid() && unSubscribe.Some? && currentPromise == old(currentPromise)
      ensures unSubscribe.value !in notified && bus.listeners == old(bus.listeners)[cacheKey := notified + [unSubscribe.value]]
      ensures store.GetCache(cacheKey) == Some(Cached(data, Arr(params), now))
      ensures forall k | k != cacheKey :: store.GetCache(k) == old(store.GetCache(k))
      ensures old(unSubscribe).Some? ==> old(unSubscribe).value !in notified
      ensures notified == (if old(unSubscribe).Some? then RemoveFirst(old(bus.listeners)[cacheKey], old(unSubscribe).value)
                           else ListOf(old(bus.listeners), cacheKey))
      ensures closures.owner == old(closures.owner)[unSubscribe.value := fetch]
      ensures forall l | l in notified :: l in old(closures.owner)
      ensures DataDelivered(Owners(old(closures.owner), notified), data)
      ensures forall f | f in old(closures.owner).Values && f !in Owners(old(closures.owner), notified) :: unchanged(f)
    {
      notified := WriteAndNotify(data, Arr(params), now);
    }

    /** `onMutate(data)`: the same write and notification, with the engine's
        current `params`. */
    method OnMutate(data: Value, now: int) returns (notified: seq<nat>)
      requires Valid()
      modifies this, store, bus, closures, closures.owner.Values
      ensures Valid() && unSubscribe.Some? && currentPromise == old(currentPromise)
      ensures unSubscribe.value !in notified && bus.listeners == old(bus.listeners)[cacheKey := notified + [unSubscribe.value]]
      ensures store.GetCache(cacheKey) == Some(Cached(data, old(fetch.state.params), now))
      ensures forall k | k != cacheKey :: store.GetCache(k) == old(store.GetCache(k))
      ensures old(unSubscribe).Some? ==> old(unSubscribe).value !in notified
      ensures notified == (if old(unSubscribe).Some? then RemoveFirst(old(bus.listeners)[cacheKey], old(unSubscribe).value)
                           else ListOf(old(bus.listeners), cacheKey))
      ensures closures.owner == old(closures.owner)[unSubscribe.value := fetch]
      ensures forall l | l in notified :: l in old(closures.owner)
      ensures DataDelivered(Owners(old(closures.owner), notified), data)
      ensures forall f | f in old(closures.owner).Values && f !in Owners(old(closures.owner), notified) :: unchanged(f)
    {
      notified := WriteAndNotify(data, fetch.state.params, now);
    }

    /** The unmount effect: the instance leaves the bus. */
    method Unmount()
      requires Valid()
      modifies bus
      ensures bus.Valid()
      ensures unSubscribe.Some? ==> bus.listeners == old(bus.listeners)[cacheKey := RemoveFirst(old(bus.listeners)[cacheKey], unSubscribe.value)]
      ensures unSubscribe.None? ==> bus.listeners == old(bus.listeners)
    {
      if unSubscribe.Some? {
        bus.Unsubscribe(cacheKey, unSubscribe.value);
      }
    }
  }

  /** Two instances on one key: the second reuses the first one's
      in-flight promise instead of calling the service, while the first,
      asked again, starts a new request of its own. */
  method SecondInstanceSharesPromise() returns (firstCalled: bool, secondCalled: bool, shared: bool, againCalled: bool)
    ensures firstCalled && !secondCalled && shared && againCalled
  {
    var store := new CacheStore();
    var promises := new PromiseStore();
    var bus := new CacheBus();
    var closures := new Closures();
    var f1 := new Fetch(Options(true, false, false, false, false), NoFields);
    var f2 := new Fetch(Options(true, false, false, false, false), NoFields);
    var a := new CachePlugin("articles", None, None, store, promises, bus, closures, f1);
    var b := new CachePlugin("articles", None, None, store, promises, bus, closures, f2);
    var pa, pb, pc;
    pa, firstCalled := a.OnRequest(1);
    pb, secondCalled := b.OnRequest(2);
    shared := pa == pb;
    pc, againCalled := a.OnRequest(3);
  }

  /** Two instances of the key "articles" over one store and one bus,
      both subscribed, the first one first. */
  method TwoInstances(now: int) returns (a: CachePlugin, b: CachePlugin)
    ensures fresh(a) && fresh(b) && fresh(a.store) && fresh(a.bus) && fresh(a.closures) && fresh(a.fetch) && fresh(b.fetch)
    ensures a.Valid() && a.cacheKey == "articles" && a.store == b.store && a.bus == b.bus && a.closures == b.closures
    ensures a.unSubscribe.Some? && b.unSubscribe.Some? && a.fetch != b.fetch
    ensures a.bus.listeners["articles"] == [a.unSubscribe.value, b.unSubscribe.value]
    ensures a.unSubscribe.value != b.unSubscribe.value
    ensures a.closures.owner == map[a.unSubscribe.value := a.fetch, b.unSubscribe.value := b.fetch]
  {
    var store := new CacheStore();
    var promises := new PromiseStore();
    var bus := new CacheBus();
    var closures := new Closures();
    var f1 := new Fetch(Options(true, false, false, false, false), NoFields);
    var f2 := new Fetch(Options(true, false, false, false, false), NoFields);
    a := new CachePlugin("articles", None, None, store, promises, bus, closures, f1);
    b := new CachePlugin("articles", None, None, store, promises, bus, closures, f2);
    a.Init(now);
    assert bus.listeners["articles"] == [a.unSubscribe.value];
    b.Init(now);
  }

  /** Two instances share the key: the first one's success is cached and
      reaches the second one's listener only, which sets the second
      instance's data with one re-render; the first instance's own state
      is left as it was. */
  method SuccessNotifiesOtherInstance(data: Value, params: seq<Value>, now: int)
    returns (notifiedOtherOnly: bool, cached: Option<Cached>, otherData: Value, otherRenders: nat, ownUnchanged: bool)
    ensures notifiedOtherOnly && cached == Some(Cached(data, Arr(params), now))
    ensures otherData == data && otherRenders == 1 && ownUnchanged
  {
    var a, b := TwoInstances(now);
    var la, lb := a.unSubscribe.value, b.unSubscribe.value;
    var before, renders, ownBefore := b.fetch.state, |b.fetch.log|, a.fetch.state;
    var notified := a.OnSuccess(data, params, now);
    assert RemoveFirst([la, lb], la) == [lb];
    notifiedOtherOnly := notified == [lb];
    cached := a.store.GetCache("articles");
    assert Owners(map[la := a.fetch, lb := b.fetch], [lb]) == [b.fetch];
    assert multiset([b.fetch])[b.fetch] == 1;
    otherData := b.fetch.state.data;
    otherRenders := |b.fetch.log| - renders;
    ownUnchanged := a.fetch.state == ownBefore;
  }

  /** The same notification from `mutate`: the second instance's data is
      the mutated data, with the first instance's parameters cached. */
  method MutateNotifiesOtherInstance(data: Value, now: int)
    returns (notifiedOtherOnly: bool, cached: Option<Cached>, otherData: Value)
    ensures notifiedOtherOnly && cached.Some? && cached.value.data == data && otherData == data
  {
    var a, b := TwoInstances(now);
    var la, lb := a.unSubscribe.value, b.unSubscribe.value;
    var notified := a.OnMutate(data, now);
    assert RemoveFirst([la, lb], la) == [lb];
    notifiedOtherOnly := notified == [lb];
    cached := a.store.GetCache("articles");
    assert Owners(map[la := a.fetch, lb := b.fetch], [lb]) == [b.fetch];
    otherData := b.fetch.state.data;
  }

  /** An instance of "articles" with `staleTime` 1000 whose run at `now`
      succeeded with `data`: its next `onBefore`, half the stale time
      later, answers from the cache. */
  method CachedInstance(data: Value, params: seq<Value>, now: int) returns (f: Fetch, p: Patch)
    ensures fresh(f) && f.log == []
    ensures p.returnNow == Some(true) && p.stopNow.None? && p.data == Some(data)
  {
    var store := new CacheStore();
    var promises := new PromiseStore();
    var bus := new CacheBus();
    var closures := new Closures();
    f := new Fetch(Options(true, false, false, false, false), NoFields);
    var plugin := new CachePlugin("articles", None, Some(1000), store, promises, bus, closures, f);
    plugin.Init(now);
    var _ := plugin.OnSuccess(data, params, now);
    p := plugin.OnBefore(now + 500);
  }

  /** Within `staleTime` a cached result answers the next run from the
      cache: the engine returns the data and never calls the service. */
  method FreshCacheSkipsService(data: Value, params: seq<Value>, now: int) returns (r: Run, serviceCalled: bool)
    ensures r == ReturnedNow(data) && !serviceCalled
  {
    var f, p := CachedInstance(data, params, now);
    assert Merge([Some(p)]) == Assign(NoFields, p);
    r := f.RunAsync(params, [Some(p)], []);
    serviceCalled := exists i | 0 <= i < |f.log| :: f.log[i].ServiceCalled?;
  }
}
