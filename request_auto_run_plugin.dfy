/** The auto-run plugin of useRequest (src/hooks/useRequest/src/plugins/useAutoRunPlugin.ts):
    the `ready` gate on every run, and the two update effects that rerun the
    request when `ready` or `refreshDeps` change. Effects are modelled as one
    `Render` step that reports what the effects asked the engine to do. */
module RequestAutoRunPlugin {
  import opened Js
  import opened RequestFetch

  /** What the effects of one render ask of the engine, in order. */
  datatype Action = RunDefault(params: seq<Value>) | CallRefresh | CallRefreshDepsAction

  /** The options with their defaults applied: `ready = true`,
      `defaultParams = []`, `refreshDeps = []`. */
  datatype AutoRunOptions = AutoRunOptions(
    manual: bool,
    ready: Option<bool>,
    defaultParams: Option<seq<Value>>,
    refreshDeps: Option<seq<Value>>,
    hasRefreshDepsAction: bool)

  function ReadyOf(o: AutoRunOptions): bool { o.ready.GetOr(true) }
  function DefaultParamsOf(o: AutoRunOptions): seq<Value> { o.defaultParams.GetOr([]) }
  function RefreshDepsOf(o: AutoRunOptions): seq<Value> { o.refreshDeps.GetOr([]) }

  /** `onBefore`: `{stopNow: true}` exactly when not ready, nothing otherwise. */
  function OnBefore(ready: bool): (r: Option<Patch>)
    ensures r.Some? <==> !ready
    ensures r.Some? ==> r.value.stopNow == Some(true) && r.value.(stopNow := None) == NoFields
  {
    if !ready then Some(NoFields.(stopNow := Some(true))) else None
  }

  class AutoRunPlugin {
    var options: AutoRunOptions
    var hasAutoRun: bool
    /** Whether a render happened before: update effects skip the first. */
    var mounted: bool

    constructor (options: AutoRunOptions)
      ensures this.options == options && !hasAutoRun && !mounted
    {
      this.options := options;
      hasAutoRun := false;
      mounted := false;
    }

    /** One render with new options: `hasAutoRun` is lowered, then the
        `ready` effect runs if `ready` changed, then the `refreshDeps`
        effect if the dependencies changed; none of them on the first render. */
    method Render(next: AutoRunOptions) returns (actions: seq<Action>)
      modifies this
      ensures options == next && mounted
      ensures var readyChanged := old(mounted) && ReadyOf(next) != ReadyOf(old(options));
        var depsChanged := old(mounted) && RefreshDepsOf(next) != RefreshDepsOf(old(options));
        var readyRuns := readyChanged && !next.manual && ReadyOf(next);
        var depsRun := depsChanged && !readyRuns && !next.manual;
        && actions == (if readyRuns then [RunDefault(DefaultParamsOf(next))] else [])
                      + (if depsRun then [if next.hasRefreshDepsAction then CallRefreshDepsAction else CallRefresh] else [])
        && hasAutoRun == (readyRuns || depsRun)
    {
      var previous := options;
      options := next;
      hasAutoRun := false;
      actions := [];
      if mounted && ReadyOf(next) != ReadyOf(previous) {
        if !next.manual && ReadyOf(next) {
          hasAutoRun := true;
          actions := actions + [RunDefault(DefaultParamsOf(next))];
        }
      }
      if mounted && RefreshDepsOf(next) != RefreshDepsOf(previous) {
        if !hasAutoRun && !next.manual {
          hasAutoRun := true;
          if next.hasRefreshDepsAction {
            actions := actions + [CallRefreshDepsAction];
          } else {
            actions := actions + [CallRefresh];
          }
        }
      }
      mounted := true;
    }
  }

  /** `ready` turning true together with a `refreshDeps` change runs the
      request once, with the default parameters. */
  method ReadyAndDepsChangeRunOnce(params: seq<Value>) returns (first: seq<Action>, second: seq<Action>)
    ensures first == [] && second == [RunDefault(params)]
  {
    var plugin := new AutoRunPlugin(AutoRunOptions(false, Some(false), Some(params), Some([Num(1)]), false));
    first := plugin.Render(AutoRunOptions(false, Some(false), Some(params), Some([Num(1)]), false));
    second := plugin.Render(AutoRunOptions(false, Some(true), Some(params), Some([Num(2)]), false));
  }

  /** In manual mode neither effect runs anything. */
  method ManualNeverAutoRuns(params: seq<Value>) returns (actions: seq<Action>)
    ensures actions == []
  {
    var plugin := new AutoRunPlugin(AutoRunOptions(true, Some(false), Some(params), None, true));
    var _ := plugin.Render(AutoRunOptions(true, Some(false), Some(params), None, true));
    actions := plugin.Render(AutoRunOptions(true, None, Some(params), Some([Str("page")]), true));
  }

  /** With `ready = false` the engine stops the run before any service call. */
  method NotReadyStopsRun(params: seq<Value>) returns (r: Run, serviceCalled: bool)
    ensures r == Stopped && !serviceCalled
  {
    var f := new Fetch(Options(true, false, false, false, false), NoFields);
    r := f.RunAsync(params, [None, OnBefore(false)], []);
    serviceCalled := exists i | 0 <= i < |f.log| :: f.log[i].ServiceCalled?;
  }
}
