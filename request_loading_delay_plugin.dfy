/** The loading-delay plugin of useRequest
    (src/hooks/useRequest/src/plugins/useLoadingDelayPlugin.ts): `loading`
    is forced false when a run starts and only turns true once
    `loadingDelay` has passed without the run finishing. `ready` is the raw
    option (`None` when the caller leaves it undefined). */
module RequestLoadingDelayPlugin {
  import opened Js
  import opened Timers
  import opened RequestFetch

  /** A falsy `loadingDelay` (undefined or 0) installs no handlers. */
  predicate HasHandlers(loadingDelay: Option<int>) {
    loadingDelay.Some? && loadingDelay.value != 0
  }

  /** The schedule condition as written, `if (!ready)`. */
  predicate SchedulesAsWritten(ready: Option<bool>) {
    !(ready.Some? && ready.value)
  }

  /** The condition evidently intended, `ready !== false`: delay the
      loading flag of every run that is not stopped by the `ready` gate. */
  predicate Schedules(ready: Option<bool>) {
    ready != Some(false)
  }

  /** The two conditions disagree on every explicit `ready`: as written an
      explicitly ready request never shows `loading`, while a request stopped
      by `ready = false` gets a timer; only an undefined `ready` agrees. */
  lemma AsWrittenInvertsExplicitReady(ready: Option<bool>)
    ensures SchedulesAsWritten(ready) == Schedules(ready) <==> ready.None?
    ensures Schedules(ready) <==> (ready.None? || ready.value)
  {
  }

  const LoadingFalse := NoFields.(loading := Some(false))

  class LoadingDelayPlugin {
    const loadingDelay: int
    const ready: Option<bool>
    var timers: Table<()>
    var timerRef: Option<nat>

    ghost predicate Valid()
      reads this
    {
      timers.Valid()
    }

    constructor (loadingDelay: int, ready: Option<bool>)
      requires HasHandlers(Some(loadingDelay))
      ensures Valid() && this.loadingDelay == loadingDelay && this.ready == ready
      ensures timers.live == map[] && timerRef == None
    {
      this.loadingDelay := loadingDelay;
      this.ready := ready;
      timers := Empty();
      timerRef := None;
    }

    /** `onBefore`: cancels the pending timer, schedules a new one when the
        run is not gated off, and always answers `{loading: false}`. */
    method OnBefore() returns (p: Patch)
      requires Valid()
      modifies this
      ensures Valid() && p == LoadingFalse
      ensures var cleared := old(timers).Clear(old(timerRef));
        if Schedules(ready) then
          var started := cleared.Start(loadingDelay, ());
          timers == started.0 && timerRef == Some(started.1)
        else
          timers == cleared && timerRef == old(timerRef)
    {
      timers := timers.Clear(timerRef);
      if Schedules(ready) {
        var started := timers.Start(loadingDelay, ());
        timers := started.0;
        timerRef := Some(started.1);
      }
      p := LoadingFalse;
    }

    /** `onBefore` as written, with `if (!ready)`. */
    method OnBeforeAsWritten() returns (p: Patch)
      requires Valid()
      modifies this
      ensures Valid() && p == LoadingFalse
      ensures var cleared := old(timers).Clear(old(timerRef));
        if SchedulesAsWritten(ready) then
          var started := cleared.Start(loadingDelay, ());
          timers == started.0 && timerRef == Some(started.1)
        else
          timers == cleared && timerRef == old(timerRef)
    {
      timers := timers.Clear(timerRef);
      if SchedulesAsWritten(ready) {
        var started := timers.Start(loadingDelay, ());
        timers := started.0;
        timerRef := Some(started.1);
      }
      p := LoadingFalse;
    }

    /** `onFinally` and `onCancel`: the pending timer is cancelled. */
    method CancelTimeout()
      requires Valid()
      modifies this
      ensures Valid() && timers == old(timers).Clear(old(timerRef)) && timerRef == old(timerRef)
    {
      timers := timers.Clear(timerRef);
    }

    /** The delay timer `h` fires: `setState({loading: true})`. */
    method Fire(h: nat, f: Fetch)
      requires Valid() && h in timers.live
      modifies this, f
      ensures Valid() && timers == old(timers).Fired(h) && timerRef == old(timerRef)
      ensures f.state == old(f.state).(loading := true) && f.count == old(f.count)
    {
      timers := timers.Fired(h);
      f.SetState(NoFields.(loading := Some(true)));
    }
  }

  /** As written, with `manual` and `ready = false`: `run()` is stopped by
      the `ready` gate, yet the delay timer was scheduled, and when it fires
      the stopped request shows `loading` for good. */
  method StoppedRunShowsLoading(params: seq<Value>) returns (r: Run, loading: bool)
    ensures r == Stopped && loading
  {
    var f := new Fetch(Options(true, false, false, false, false), NoFields);
    var plugin := new LoadingDelayPlugin(300, Some(false));
    var p := plugin.OnBeforeAsWritten();
    r := f.RunAsync(params, [Some(p), Some(NoFields.(stopNow := Some(true)))], []);
    var h := plugin.timerRef.value;
    plugin.Fire(h, f);
    loading := f.state.loading;
  }

  /** With the intended condition the gated-off run schedules nothing, and
      an explicitly ready run is delayed like an undefined one. */
  method IntendedDelay(params: seq<Value>) returns (gatedTimers: nat, readyTimers: nat, loadingAtStart: bool, loadingLater: bool)
    ensures gatedTimers == 0 && readyTimers == 1 && !loadingAtStart && loadingLater
  {
    var gated := new LoadingDelayPlugin(300, Some(false));
    var _ := gated.OnBefore();
    gatedTimers := |gated.timers.live|;
    var f := new Fetch(Options(true, false, false, false, false), NoFields);
    var plugin := new LoadingDelayPlugin(300, Some(true));
    var p := plugin.OnBefore();
    readyTimers := |plugin.timers.live|;
    var r := f.RunAsync(params, [Some(p)], []);
    loadingAtStart := f.state.loading;
    plugin.Fire(plugin.timerRef.value, f);
    loadingLater := f.state.loading;
  }
}
