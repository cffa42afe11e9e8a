/** The polling plugin of useRequest (src/hooks/useRequest/src/plugins/usePollingPlugin.ts):
    after every run it schedules `refresh` after `pollingInterval`, stops
    after too many failures in a row, and with `pollingWhenHidden = false`
    waits for the page to become visible again. Visibility is a parameter;
    re-visibility subscriptions live in the global list of
    subscribeReVisible.ts, and are dropped with its `unsubscribe` as written,
    which splices out the last listener when the handle is already gone. */
module RequestPollingPlugin {
  import opened Js
  import opened Timers
  import opened RequestListeners

  /** A falsy `pollingInterval` (undefined or 0) installs no handlers. */
  predicate HasHandlers(pollingInterval: Option<int>) {
    pollingInterval.Some? && pollingInterval.value != 0
  }

  /** The defaults of the destructured options. */
  datatype PollingOptions = PollingOptions(pollingInterval: Option<int>, pollingWhenHidden: Option<bool>, pollingErrorRetryCount: Option<int>)

  function WhenHidden(o: PollingOptions): bool { o.pollingWhenHidden.GetOr(true) }
  function ErrorRetryCount(o: PollingOptions): int { o.pollingErrorRetryCount.GetOr(-1) }

  /** Whether `onFinally` schedules the next poll after `count` failures in a row. */
  predicate SchedulesNext(pollingErrorRetryCount: int, count: nat) {
    pollingErrorRetryCount == -1 || count <= pollingErrorRetryCount
  }

  class PollingPlugin {
    var pollingInterval: int
    const pollingWhenHidden: bool
    const pollingErrorRetryCount: int
    var count: nat
    var timers: Table<()>
    var timerRef: Option<nat>
    /** The last re-visibility subscription; `stopPolling` never clears it. */
    var unsubscribeRef: Option<nat>
    const revisible: ListenerList

    ghost predicate Valid()
      reads this, revisible
    {
      timers.Valid() && revisible.Valid()
    }

    constructor (options: PollingOptions, revisible: ListenerList)
      requires HasHandlers(options.pollingInterval) && revisible.Valid()
      ensures Valid() && this.revisible == revisible
      ensures pollingInterval == options.pollingInterval.value
      ensures pollingWhenHidden == WhenHidden(options) && pollingErrorRetryCount == ErrorRetryCount(options)
      ensures count == 0 && timers.live == map[] && timerRef == None && unsubscribeRef == None
    {
      pollingInterval := options.pollingInterval.value;
      pollingWhenHidden := WhenHidden(options);
      pollingErrorRetryCount := ErrorRetryCount(options);
      count := 0;
      timers := Empty();
      timerRef := None;
      unsubscribeRef := None;
      this.revisible := revisible;
    }

    /** `stopPolling()`: cancels the poll timer and drops the last
        re-visibility subscription; a handle that is already gone makes
        `splice(indexOf(...), 1)` drop the last listener instead. */
    method StopPolling()
      requires Valid()
      modifies this, revisible
      ensures Valid()
      ensures timers == old(timers).Clear(old(timerRef))
      ensures revisible.listeners == (if unsubscribeRef.Some? then SpliceIndexOf(old(revisible.listeners), unsubscribeRef.value) else old(revisible.listeners))
      ensures count == old(count) && timerRef == old(timerRef) && unsubscribeRef == old(unsubscribeRef) && pollingInterval == old(pollingInterval)
    {
      timers := timers.Clear(timerRef);
      if unsubscribeRef.Some? {
        revisible.UnsubscribeAsWritten(unsubscribeRef.value);
      }
    }

    /** A render with the new `pollingInterval`. The update effect runs
        only when the interval changed, and then stops polling if the new
        one is falsy. */
    method SetPollingInterval(interval: int)
      requires Valid()
      modifies this, revisible
      ensures Valid() && pollingInterval == interval && count == old(count)
      ensures timerRef == old(timerRef) && unsubscribeRef == old(unsubscribeRef)
      ensures interval == 0 && old(pollingInterval) != 0 ==>
        timers == old(timers).Clear(old(timerRef)) && revisible.listeners == (if unsubscribeRef.Some? then SpliceIndexOf(old(revisible.listeners), unsubscribeRef.value) else old(revisible.listeners))
      ensures interval != 0 || old(pollingInterval) == 0 ==>
        timers == old(timers) && revisible.listeners == old(revisible.listeners)
    {
      var changed := interval != pollingInterval;
      pollingInterval := interval;
      if changed && interval == 0 {
        StopPolling();
      }
    }

    /** `onBefore` and `onCancel` both stop polling. Like the other
        handlers they exist only while `pollingInterval` is truthy. */
    method OnBefore()
      requires Valid() && pollingInterval != 0
      modifies this, revisible
      ensures Valid() && count == old(count) && timerRef == old(timerRef) && unsubscribeRef == old(unsubscribeRef)
      ensures pollingInterval == old(pollingInterval)
      ensures timers == old(timers).Clear(old(timerRef))
      ensures revisible.listeners == (if unsubscribeRef.Some? then SpliceIndexOf(old(revisible.listeners), unsubscribeRef.value) else old(revisible.listeners))
    {
      StopPolling();
    }

    method OnCancel()
      requires Valid() && pollingInterval != 0
      modifies this, revisible
      ensures Valid() && count == old(count) && timerRef == old(timerRef) && unsubscribeRef == old(unsubscribeRef)
      ensures pollingInterval == old(pollingInterval)
      ensures timers == old(timers).Clear(old(timerRef))
      ensures revisible.listeners == (if unsubscribeRef.Some? then SpliceIndexOf(old(revisible.listeners), unsubscribeRef.value) else old(revisible.listeners))
    {
      StopPolling();
    }

    method OnError()
      requires Valid() && pollingInterval != 0
      modifies this
      ensures Valid() && count == old(count) + 1 && timers == old(timers) && timerRef == old(timerRef)
      ensures unsubscribeRef == old(unsubscribeRef) && pollingInterval == old(pollingInterval)
    {
      count := count + 1;
    }

    method OnSuccess()
      requires Valid() && pollingInterval != 0
      modifies this
      ensures Valid() && count == 0 && timers == old(timers) && timerRef == old(timerRef)
      ensures unsubscribeRef == old(unsubscribeRef) && pollingInterval == old(pollingInterval)
    {
      count := 0;
    }

    /** `onFinally`: the next poll is scheduled while the failure ceiling
        is not passed; otherwise the counter resets and polling ends. */
    method OnFinally()
      requires Valid() && pollingInterval != 0
      modifies this
      ensures Valid() && unsubscribeRef == old(unsubscribeRef) && pollingInterval == old(pollingInterval)
      ensures if SchedulesNext(pollingErrorRetryCount, old(count)) then
          var started := old(timers).Start(pollingInterval, ());
          count == old(count) && timers == started.0 && timerRef == Some(started.1)
        else
          count == 0 && timers == old(timers) && timerRef == old(timerRef)
    {
      if pollingErrorRetryCount == -1 || count <= pollingErrorRetryCount {
        var started := timers.Start(pollingInterval, ());
        timers := started.0;
        timerRef := Some(started.1);
      } else {
        count := 0;
      }
    }

    /** The poll timer `h` fires. With `pollingWhenHidden = false` on a
        hidden page the plugin subscribes for re-visibility instead of
        refreshing; `refresh` tells the caller to run `refresh()`. */
    method Fire(h: nat, visible: bool) returns (refresh: bool)
      requires Valid() && h in timers.live
      modifies this, revisible
      ensures Valid() && timers == old(timers).Fired(h) && count == old(count)
      ensures timerRef == old(timerRef) && pollingInterval == old(pollingInterval)
      ensures refresh <==> pollingWhenHidden || visible
      ensures refresh ==> revisible.listeners == old(revisible.listeners) && unsubscribeRef == old(unsubscribeRef)
      ensures !refresh ==>
        && unsubscribeRef.Some? && unsubscribeRef.value !in old(revisible.listeners)
        && revisible.listeners == old(revisible.listeners) + [unsubscribeRef.value]
    {
      timers := timers.Fired(h);
      if !pollingWhenHidden && !visible {
        var l := revisible.Subscribe();
        unsubscribeRef := Some(l);
        refresh := false;
      } else {
        refresh := true;
      }
    }
  }

  /** `n` polls in a row that all fail, from a plugin with no failure
      counted yet and a visible page: each run stops polling in `onBefore`,
      counts the failure, and in `onFinally` schedules the next poll, whose
      timer fires and refreshes. With the ceiling -1 polling goes on
      through every failure; otherwise it stops at failure `ceiling + 1`
      (the first one for a ceiling below 1), with the counter reset and no
      poll pending. `polled` is the number of failures after which a poll
      was scheduled, and `pending` whether one is scheduled at the end. */
  method StopsAfterCeiling(plugin: PollingPlugin, n: nat) returns (polled: nat, stopped: bool, pending: bool)
    requires plugin.Valid() && plugin.pollingInterval != 0 && plugin.count == 0
    modifies plugin, plugin.revisible
    ensures var ceiling := plugin.pollingErrorRetryCount;
      var last := if ceiling < 0 then 0 else ceiling;
      stopped <==> ceiling != -1 && n > last
    ensures stopped ==> plugin.count == 0 && !pending
    ensures stopped ==> polled == (if plugin.pollingErrorRetryCount < 0 then 0 else plugin.pollingErrorRetryCount)
    ensures !stopped ==> polled == n && plugin.count == n && (n > 0 ==> pending)
  {
    var ceiling := plugin.pollingErrorRetryCount;
    var last := if ceiling < 0 then 0 else ceiling;
    polled, stopped := 0, false;
    var i := 0;
    while i < n && !stopped
      invariant plugin.Valid() && plugin.pollingInterval != 0 && plugin.pollingErrorRetryCount == ceiling
      invariant 0 <= i <= n
      invariant !stopped ==> polled == i && plugin.count == i && (ceiling == -1 || i <= last)
      invariant !stopped && i > 0 ==> plugin.timerRef.Some? && plugin.timerRef.value in plugin.timers.live
      invariant stopped ==> ceiling != -1 && polled == last && i == last + 1 && plugin.count == 0
      invariant stopped ==> !(plugin.timerRef.Some? && plugin.timerRef.value in plugin.timers.live)
    {
      if i > 0 {
        var refresh := plugin.Fire(plugin.timerRef.value, true);
      }
      plugin.OnBefore();
      plugin.OnError();
      plugin.OnFinally();
      if plugin.timerRef.Some? && plugin.timerRef.value in plugin.timers.live {
        polled := polled + 1;
      } else {
        stopped := true;
      }
      i := i + 1;
    }
    pending := plugin.timerRef.Some? && plugin.timerRef.value in plugin.timers.live;
  }

  /** `pollingErrorRetryCount = 1`: after one failure polling goes on, after
      the second in a row it stops and the counter resets. */
  method PollingStopsAfterRepeatedFailure(list: ListenerList) returns (first: bool, second: bool, count: nat)
    requires list.Valid()
    modifies list
    ensures first && !second && count == 0
  {
    var plugin := new PollingPlugin(PollingOptions(Some(1000), None, Some(1)), list);
    plugin.OnBefore();
    plugin.OnError();
    plugin.OnFinally();
    first := plugin.timers.live != map[];
    var h :| h in plugin.timers.live;
    var _ := plugin.Fire(h, true);
    plugin.OnBefore();
    plugin.OnError();
    var before := plugin.timers;
    plugin.OnFinally();
    second := plugin.timers != before;
    count := plugin.count;
  }

  /** A hidden page with `pollingWhenHidden = false`: the poll subscribes
      for re-visibility; when it comes back the listener refreshes, whose
      `onBefore` ends the subscription, and a later `cancel()` calls the
      same stale handle once more, which splices out another subscriber. */
  method HiddenPollResumesOnVisibility() returns (subscribedWhileHidden: bool, called: seq<nat>, otherKept: bool)
    ensures subscribedWhileHidden && |called| == 2 && !otherKept
  {
    var list := new ListenerList();
    var other := list.Subscribe();
    var plugin := new PollingPlugin(PollingOptions(Some(1000), Some(false), None), list);
    plugin.OnFinally();
    var h :| h in plugin.timers.live;
    var refresh := plugin.Fire(h, false);
    subscribedWhileHidden := !refresh && plugin.unsubscribeRef.Some? && plugin.unsubscribeRef.value in list.listeners;
    called := list.Revalidate(true);
    plugin.OnBefore();
    plugin.OnCancel();
    otherKept := other in list.listeners;
  }

  /** The update effect acts only on a change: a second render with a falsy
      interval does not stop polling again, so the stale re-visibility
      handle is not spliced a second time and another subscriber stays. */
  method RepeatedZeroIntervalKeepsOther() returns (otherAfterFirst: bool, otherAfterSecond: bool)
    ensures otherAfterFirst && otherAfterSecond
  {
    var list := new ListenerList();
    var other := list.Subscribe();
    var plugin := new PollingPlugin(PollingOptions(Some(1000), Some(false), None), list);
    plugin.OnFinally();
    var h :| h in plugin.timers.live;
    var _ := plugin.Fire(h, false);
    plugin.SetPollingInterval(0);
    otherAfterFirst := other in list.listeners;
    plugin.SetPollingInterval(0);
    otherAfterSecond := other in list.listeners;
  }
}
