/** The retry plugin of useRequest (src/hooks/useRequest/src/plugins/useRetryPlugin.ts):
    after a failed run it schedules `refresh` with exponential backoff, up to
    `retryCount` times in a row (`-1`: without limit). */
module RequestRetryPlugin {
  import opened Js
  import opened Timers

  /** A falsy `retryCount` (undefined or 0) installs no handlers. */
  predicate HasHandlers(retryCount: Option<int>) {
    retryCount.Some? && retryCount.value != 0
  }

  function Pow2(n: nat): (p: nat)
    ensures p >= 1
  {
    if n == 0 then 1 else 2 * Pow2(n - 1)
  }

  function Min(a: int, b: int): int {
    if a <= b then a else b
  }

  /** `retryInterval ?? Math.min(1000 * 2 ** count, 30000)`. */
  function Delay(retryInterval: Option<int>, count: nat): (r: int)
    ensures retryInterval.Some? ==> r == retryInterval.value
    ensures retryInterval.None? ==> 1000 <= r <= 30000
  {
    if retryInterval.Some? then retryInterval.value else Min(1000 * Pow2(count), 30000)
  }

  lemma {:induction false} Pow2Monotone(n: nat, m: nat)
    requires n <= m
    ensures Pow2(n) <= Pow2(m)
    decreases m
  {
    if n < m {
      Pow2Monotone(n, m - 1);
    }
  }

  /** The default backoff: 2000, 4000, 8000, 16000 ms for the first four
      retries, then the 30000 ms ceiling; it never decreases. */
  lemma DefaultBackoff(n: nat, m: nat)
    requires n <= m
    ensures Delay(None, 1) == 2000 && Delay(None, 2) == 4000 && Delay(None, 3) == 8000 && Delay(None, 4) == 16000
    ensures n >= 5 ==> Delay(None, n) == 30000
    ensures 1000 <= Delay(None, n) <= Delay(None, m) <= 30000
  {
    Pow2Monotone(n, m);
    if n >= 5 {
      Pow2Monotone(5, n);
    }
  }

  class RetryPlugin {
    const retryCount: int
    const retryInterval: Option<int>
    var count: nat
    var triggerByRetry: bool
    var timers: Table<()>
    var timerRef: Option<nat>

    ghost predicate Valid()
      reads this
    {
      timers.Valid()
    }

    constructor (retryCount: int, retryInterval: Option<int>)
      requires HasHandlers(Some(retryCount))
      ensures Valid() && this.retryCount == retryCount && this.retryInterval == retryInterval
      ensures count == 0 && !triggerByRetry && timers.live == map[] && timerRef == None
    {
      this.retryCount := retryCount;
      this.retryInterval := retryInterval;
      count := 0;
      triggerByRetry := false;
      timers := Empty();
      timerRef := None;
    }

    /** `onBefore`: the counter survives only a run started by a retry; the
        flag is lowered and any pending retry timer cancelled. */
    method OnBefore()
      requires Valid()
      modifies this
      ensures Valid()
      ensures count == (if old(triggerByRetry) then old(count) else 0)
      ensures !triggerByRetry && timers == old(timers).Clear(old(timerRef)) && timerRef == old(timerRef)
    {
      if !triggerByRetry {
        count := 0;
      }
      triggerByRetry := false;
      timers := timers.Clear(timerRef);
    }

    /** `onSuccess`: the counter goes back to 0. */
    method OnSuccess()
      modifies this
      ensures count == 0
      ensures triggerByRetry == old(triggerByRetry) && timers == old(timers) && timerRef == old(timerRef)
    {
      count := 0;
    }

    /** `onError`: one more failure; a retry is scheduled exactly while the
        ceiling is not passed, otherwise the counter resets. */
    method OnError()
      requires Valid()
      modifies this
      ensures Valid() && triggerByRetry == old(triggerByRetry)
      ensures var c := old(count) + 1;
        if retryCount == -1 || c <= retryCount then
          var started := old(timers).Start(Delay(retryInterval, c), ());
          count == c && timers == started.0 && timerRef == Some(started.1)
        else
          count == 0 && timers == old(timers) && timerRef == old(timerRef)
    {
      count := count + 1;
      if retryCount == -1 || count <= retryCount {
        var started := timers.Start(Delay(retryInterval, count), ());
        timers := started.0;
        timerRef := Some(started.1);
      } else {
        count := 0;
      }
    }

    /** `onCancel`: counter back to 0, pending retry cancelled. */
    method OnCancel()
      requires Valid()
      modifies this
      ensures Valid() && count == 0 && triggerByRetry == old(triggerByRetry)
      ensures timers == old(timers).Clear(old(timerRef)) && timerRef == old(timerRef)
    {
      count := 0;
      timers := timers.Clear(timerRef);
    }

    /** The retry timer `h` fires: the flag goes up, then the caller runs
        `refresh()`, whose `onBefore` keeps the counter. */
    method Fire(h: nat)
      requires Valid() && h in timers.live
      modifies this
      ensures Valid() && triggerByRetry && count == old(count)
      ensures timers == old(timers).Fired(h) && timerRef == old(timerRef)
    {
      timers := timers.Fired(h);
      triggerByRetry := true;
    }
  }

  /** `n` failed runs in a row, the first started by hand and each later
      one by the retry timer of the one before (the timer fires, `refresh`
      runs `onBefore`, the run fails and `onError` runs). With the ceiling -1
      every failure schedules a retry; otherwise retrying stops exactly when
      `n` passes the ceiling, after `ceiling` retries (none for a ceiling
      below 1), with the counter reset and no retry pending. The `i`-th
      retry waits `Delay(retryInterval, i + 1)`. */
  method RetriesUpToCeiling(plugin: RetryPlugin, n: nat) returns (delays: seq<int>, stopped: bool)
    requires plugin.Valid() && plugin.count == 0 && !plugin.triggerByRetry
    modifies plugin
    ensures var last := if plugin.retryCount < 0 then 0 else plugin.retryCount;
      && (stopped <==> plugin.retryCount != -1 && n > last)
      && |delays| == (if stopped then last else n)
    ensures forall i | 0 <= i < |delays| :: delays[i] == Delay(plugin.retryInterval, i + 1)
    ensures stopped ==> plugin.count == 0
    ensures !stopped ==> plugin.count == n
    ensures !stopped && n > 0 ==> plugin.timerRef.Some? && plugin.timerRef.value in plugin.timers.live
  {
    var last := if plugin.retryCount < 0 then 0 else plugin.retryCount;
    delays := [];
    stopped := false;
    var i := 0;
    while i < n && !stopped
      invariant plugin.Valid() && !plugin.triggerByRetry && 0 <= i <= n
      invariant forall j | 0 <= j < |delays| :: delays[j] == Delay(plugin.retryInterval, j + 1)
      invariant !stopped ==> plugin.count == i && |delays| == i && (plugin.retryCount == -1 || i <= last)
      invariant !stopped && i > 0 ==> plugin.timerRef.Some? && plugin.timerRef.value in plugin.timers.live
      invariant stopped ==> plugin.count == 0 && |delays| == last && i == last + 1 && plugin.retryCount != -1
    {
      if i > 0 {
        plugin.Fire(plugin.timerRef.value);
      }
      plugin.OnBefore();
      plugin.OnError();
      if plugin.retryCount == -1 || i + 1 <= plugin.retryCount {
        delays := delays + [plugin.timers.live[plugin.timerRef.value].delay];
      } else {
        stopped := true;
      }
      i := i + 1;
    }
  }

  /** With `retryCount = 2` and the default backoff: a failure, a retry
      after 2000 ms that fails, one after 4000 ms that fails, and then no
      further retry with the counter reset. */
  method TwoRetriesThenStop() returns (delays: seq<int>, finalCount: nat, timerLeft: bool)
    ensures delays == [2000, 4000] && finalCount == 0 && !timerLeft
  {
    var plugin := new RetryPlugin(2, None);
    delays := [];
    plugin.OnBefore();
    plugin.OnError();
    var h1 := plugin.timerRef.value;
    delays := delays + [plugin.timers.live[h1].delay];
    plugin.Fire(h1);
    plugin.OnBefore();
    plugin.OnError();
    var h2 := plugin.timerRef.value;
    delays := delays + [plugin.timers.live[h2].delay];
    plugin.Fire(h2);
    plugin.OnBefore();
    plugin.OnError();
    finalCount := plugin.count;
    timerLeft := plugin.timers.live != map[];
  }

  /** A run the user starts by hand resets the retry counter. */
  method ManualRunResetsCounter() returns (count: nat)
    ensures count == 0
  {
    var plugin := new RetryPlugin(-1, Some(500));
    plugin.OnBefore();
    plugin.OnError();
    plugin.OnError();
    plugin.OnBefore();
    count := plugin.count;
  }
}
