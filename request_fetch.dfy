/** The request engine of useRequest (src/hooks/useRequest/src/Fetch.ts): one
    `Fetch` object per hook use keeps the exposed state and an invocation
    counter, and consults the installed plugins at every lifecycle stage.

    `runAsync` is split where the source awaits: `RunAsync` runs up to the
    service call and hands out a token; `Settle` is what happens when that
    service promise settles, up to the user's `onFinally`; `Finish` is the
    second counter check before the plugins' `onFinally`. Callbacks that run
    between the two (the user's and the plugins' `onSuccess`/`onError`) may
    call back into the engine, so callers may interleave `Cancel` there.

    The plugins' handlers are modelled in their own modules; the engine takes
    what they returned, in plugin order (`None` for a plugin without that
    handler or whose handler returned nothing). */
module RequestFetch {
  import opened Js

  /** The state the hook exposes: `params` is `undefined` or the argument array. */
  datatype FetchState = FetchState(loading: bool, params: Value, data: Value, error: Value)

  /** A partial state as a plugin returns it: a field is `Some` exactly when
      the returned object has that key (possibly with the value undefined). */
  datatype Patch = Patch(
    loading: Option<bool>,
    params: Option<Value>,
    data: Option<Value>,
    error: Option<Value>,
    stopNow: Option<bool>,
    returnNow: Option<bool>)

  const NoFields := Patch(None, None, None, None, None, None)

  function Over<T>(a: Option<T>, b: Option<T>): Option<T> {
    if b.Some? then b else a
  }

  /** `Object.assign(p, q)`: every key of `q` overrides `p`'s. */
  function Assign(p: Patch, q: Patch): Patch {
    Patch(Over(p.loading, q.loading), Over(p.params, q.params), Over(p.data, q.data),
          Over(p.error, q.error), Over(p.stopNow, q.stopNow), Over(p.returnNow, q.returnNow))
  }

  /** `{...s, ...p}` on the four state fields. */
  function Apply(s: FetchState, p: Patch): FetchState {
    FetchState(p.loading.GetOr(s.loading), p.params.GetOr(s.params), p.data.GetOr(s.data), p.error.GetOr(s.error))
  }

  /** runPluginHandler: `Object.assign({}, ...results.filter(Boolean))`,
      folding the plugins' results from left to right. */
  function Merge(results: seq<Option<Patch>>): Patch
    decreases |results|
  {
    if results == [] then NoFields
    else
      var earlier := Merge(results[..|results| - 1]);
      match results[|results| - 1]
      case None => earlier
      case Some(p) => Assign(earlier, p)
  }

  /** The last defined entry of `xs`. */
  function LastSome<T>(xs: seq<Option<T>>): Option<T>
    decreases |xs|
  {
    if xs == [] then None
    else if xs[|xs| - 1].Some? then xs[|xs| - 1]
    else LastSome(xs[..|xs| - 1])
  }

  /** The values one key takes in the plugins' results, `None` where a
      plugin returned nothing or an object without that key. */
  function Project<T>(results: seq<Option<Patch>>, key: Patch -> Option<T>): (r: seq<Option<T>>)
    ensures |r| == |results|
    ensures forall i | 0 <= i < |results| :: r[i] == (if results[i].Some? then key(results[i].value) else None)
  {
    seq(|results|, i requires 0 <= i < |results| => if results[i].Some? then key(results[i].value) else None)
  }

  function LoadingKey(p: Patch): Option<bool> { p.loading }
  function ParamsKey(p: Patch): Option<Value> { p.params }
  function DataKey(p: Patch): Option<Value> { p.data }
  function ErrorKey(p: Patch): Option<Value> { p.error }
  function StopNowKey(p: Patch): Option<bool> { p.stopNow }
  function ReturnNowKey(p: Patch): Option<bool> { p.returnNow }

  lemma {:induction false} LastSomeIsLatest<T>(xs: seq<Option<T>>)
    ensures LastSome(xs).None? <==> forall i | 0 <= i < |xs| :: xs[i].None?
    ensures forall i | 0 <= i < |xs| && xs[i].Some? && (forall j | i < j < |xs| :: xs[j].None?) ::
      LastSome(xs) == xs[i]
    decreases |xs|
  {
    if xs != [] {
      var n := |xs| - 1;
      LastSomeIsLatest(xs[..n]);
      assert forall i | 0 <= i < n :: xs[..n][i] == xs[i];
    }
  }

  lemma ProjectPrefix<T>(results: seq<Option<Patch>>, key: Patch -> Option<T>)
    requires results != []
    ensures Project(results, key)[..|results| - 1] == Project(results[..|results| - 1], key)
  {
  }

  /** Merging plugin results is "last writer wins" on every key: the merged
      object has a key exactly when some plugin returned it, with the value
      of the last plugin that did. */
  lemma {:induction false} MergeIsLastWriterWins(results: seq<Option<Patch>>)
    ensures Merge(results) == Patch(
      LastSome(Project(results, LoadingKey)), LastSome(Project(results, ParamsKey)),
      LastSome(Project(results, DataKey)), LastSome(Project(results, ErrorKey)),
      LastSome(Project(results, StopNowKey)), LastSome(Project(results, ReturnNowKey)))
    decreases |results|
  {
    if results != [] {
      MergeIsLastWriterWins(results[..|results| - 1]);
      ProjectPrefix(results, LoadingKey);
      ProjectPrefix(results, ParamsKey);
      ProjectPrefix(results, DataKey);
      ProjectPrefix(results, ErrorKey);
      ProjectPrefix(results, StopNowKey);
      ProjectPrefix(results, ReturnNowKey);
    }
  }

  /** Two state updates in a row are one update with the merged patch. */
  lemma ApplyAssign(s: FetchState, p: Patch, q: Patch)
    ensures Apply(Apply(s, p), q) == Apply(s, Assign(p, q))
    ensures Apply(s, NoFields) == s
    ensures Apply(Apply(s, p), p) == Apply(s, p)
  {
  }

  /** `this.state.params || []`: the arguments `refresh` reuses. */
  function RefreshParams(params: Value): seq<Value> {
    if params.Arr? then params.items else []
  }

  datatype Hook = OnBefore | OnRequest | OnSuccess | OnError | OnFinally | OnCancel | OnMutate

  /** What the engine does towards the outside world, in order. */
  datatype Event =
    | Rendered                                    // this.subscribe(): the host re-reads the state
    | PluginHook(hook: Hook, args: seq<Value>)    // runPluginHandler(hook, ...args)
    | UserCallback(hook: Hook, args: seq<Value>)  // options.onBefore / onSuccess / onError / onFinally
    | ServiceCalled(params: seq<Value>)           // this.serviceRef.current(...params)

  /** `manual`, and which of the user's lifecycle callbacks `options` sets. */
  datatype Options = Options(manual: bool, onBefore: bool, onSuccess: bool, onError: bool, onFinally: bool)

  /** Where the awaited promise came from: a plugin's `onRequest` or the service. */
  datatype ServicePromise = FromPlugin(id: nat) | FromService

  /** How `runAsync` leaves its synchronous part: a promise that never
      settles, one already resolved, or the awaited service call. */
  datatype Run = Stopped | ReturnedNow(data: Value) | Pending(token: nat, params: seq<Value>, promise: ServicePromise)

  datatype Outcome = Fulfilled(res: Value) | Rejected(err: Value)

  /** What the promise returned by `runAsync` does: never settle, resolve, or reject. */
  datatype Completion = Dropped | Resolves(value: Value) | Throws(error: Value)

  function When(b: bool, e: Event): seq<Event> {
    if b then [e] else []
  }

  /** The patch `runAsync` hands to `setState` before calling the service:
      `{loading: true, params, ...state}`. */
  function StartPatch(params: seq<Value>, merged: Patch): Patch {
    Assign(Patch(Some(true), Some(Arr(params)), None, None, None, None), merged)
  }

  function FinallyArgs(params: seq<Value>, c: Completion): seq<Value> {
    match c
    case Resolves(v) => [Arr(params), v, Undefined]
    case Throws(e) => [Arr(params), Undefined, e]
    case Dropped => [Arr(params)]
  }

  class Fetch {
    var count: nat
    var state: FetchState
    var log: seq<Event>
    const options: Options

    /** `new Fetch(serviceRef, options, subscribe, initState)`: `loading` is
        `!manual`, the rest undefined, and every key of `initState` (the
        merged `onInit` results) overrides. */
    constructor (options: Options, initState: Patch)
      ensures this.options == options && count == 0 && log == []
      ensures state.loading == initState.loading.GetOr(!options.manual)
      ensures state.params == initState.params.GetOr(Undefined)
      ensures state.data == initState.data.GetOr(Undefined)
      ensures state.error == initState.error.GetOr(Undefined)
    {
      this.options := options;
      count := 0;
      log := [];
      state := Apply(FetchState(!options.manual, Undefined, Undefined, Undefined), initState);
    }

    /** Replaces exactly the fields present in `s` and notifies the host once. */
    method SetState(s: Patch)
      modifies this
      ensures state == Apply(old(state), s)
      ensures log == old(log) + [Rendered] && count == old(count)
    {
      state := Apply(state, s);
      log := log + [Rendered];
    }

    /** What `runAsync(params)` leaves behind, from state `state0` and log
        `log0`: a merged `stopNow` keeps the state and ends the run;
        otherwise the state takes the start patch, `returnNow` resolves at
        once, and failing both `onRequest` runs and the service is called
        unless a plugin supplied a promise. */
    ghost predicate Started(state0: FetchState, log0: seq<Event>, params: seq<Value>, before: seq<Option<Patch>>, request: seq<Option<nat>>, r: Run)
      reads this
    {
      var m := Merge(before);
      var hook := PluginHook(OnBefore, [Arr(params)]);
      if m.stopNow == Some(true) then
        r == Stopped && state == state0 && log == log0 + [hook]
      else
        state == Apply(state0, StartPatch(params, m)) &&
        if m.returnNow == Some(true) then
          r == ReturnedNow(m.data.GetOr(Undefined)) && log == log0 + [hook, Rendered]
        else
          var sp := LastSome(request);
          r == Pending(count, params, if sp.Some? then FromPlugin(sp.value) else FromService) &&
          log == log0 + [hook, Rendered] + When(options.onBefore, UserCallback(OnBefore, [Arr(params)]))
                 + [PluginHook(OnRequest, [Arr(params)])] + (if sp.None? then [ServiceCalled(params)] else [])
    }

    /** The synchronous part of `runAsync(...params)`. `before` and
        `request` are the plugins' `onBefore` results and the
        `servicePromise`s their `onRequest` handlers returned. */
    method RunAsync(params: seq<Value>, before: seq<Option<Patch>>, request: seq<Option<nat>>) returns (r: Run)
      modifies this
      ensures count == old(count) + 1
      ensures Started(old(state), old(log), params, before, request, r)
    {
      count := count + 1;
      var currentCount := count;
      var m := Merge(before);
      log := log + [PluginHook(OnBefore, [Arr(params)])];
      if m.stopNow == Some(true) {
        return Stopped;
      }
      SetState(StartPatch(params, m));
      if m.returnNow == Some(true) {
        return ReturnedNow(m.data.GetOr(Undefined));
      }
      if options.onBefore {
        log := log + [UserCallback(OnBefore, [Arr(params)])];
      }
      log := log + [PluginHook(OnRequest, [Arr(params)])];
      var sp := LastSome(request);
      if sp.None? {
        log := log + [ServiceCalled(params)];
        r := Pending(currentCount, params, FromService);
      } else {
        r := Pending(currentCount, params, FromPlugin(sp.value));
      }
    }

    /** `runAsync` resumed after the promise of the pending `run` settled
        with `outcome`, up to and including the user's `onFinally`; the run
        carries the token and the params that `runAsync` captured. A token
        that is no longer the current count changes nothing and settles
        nothing. */
    method Settle(run: Run, outcome: Outcome) returns (c: Completion)
      requires run.Pending?
      modifies this
      ensures count == old(count)
      ensures run.token != old(count) ==> c == Dropped && state == old(state) && log == old(log)
      ensures RunLogsToConsole(options, c) <==> run.token == old(count) && outcome.Rejected? && !options.onError
      ensures run.token == old(count) && outcome.Fulfilled? ==>
        var res := outcome.res;
        c == Resolves(res) &&
        state == FetchState(false, old(state).params, res, Undefined) &&
        log == old(log) + [Rendered] + When(options.onSuccess, UserCallback(OnSuccess, [res, Arr(run.params)]))
               + [PluginHook(OnSuccess, [res, Arr(run.params)])]
               + When(options.onFinally, UserCallback(OnFinally, [Arr(run.params), res, Undefined]))
      ensures run.token == old(count) && outcome.Rejected? ==>
        var e := outcome.err;
        c == Throws(e) &&
        state == FetchState(false, old(state).params, old(state).data, e) &&
        log == old(log) + [Rendered] + When(options.onError, UserCallback(OnError, [e, Arr(run.params)]))
               + [PluginHook(OnError, [e, Arr(run.params)])]
               + When(options.onFinally, UserCallback(OnFinally, [Arr(run.params), Undefined, e]))
    {
      var token, params := run.token, run.params;
      if token != count {
        return Dropped;
      }
      match outcome
      case Fulfilled(res) =>
        SetState(Patch(Some(false), None, Some(res), Some(Undefined), None, None));
        if options.onSuccess {
          log := log + [UserCallback(OnSuccess, [res, Arr(params)])];
        }
        log := log + [PluginHook(OnSuccess, [res, Arr(params)])];
        if options.onFinally {
          log := log + [UserCallback(OnFinally, [Arr(params), res, Undefined])];
        }
        c := Resolves(res);
      case Rejected(e) =>
        SetState(Patch(Some(false), None, None, Some(e), None, None));
        if options.onError {
          log := log + [UserCallback(OnError, [e, Arr(params)])];
        }
        log := log + [PluginHook(OnError, [e, Arr(params)])];
        if options.onFinally {
          log := log + [UserCallback(OnFinally, [Arr(params), Undefined, e])];
        }
        c := Throws(e);
    }

    /** The plugins' `onFinally`, run only if the token is still current. */
    method Finish(run: Run, c: Completion)
      requires run.Pending? && !c.Dropped?
      modifies this
      ensures count == old(count) && state == old(state)
      ensures log == old(log) + (if run.token == count then [PluginHook(OnFinally, FinallyArgs(run.params, c))] else [])
    {
      if run.token == count {
        log := log + [PluginHook(OnFinally, FinallyArgs(run.params, c))];
      }
    }

    /** Orphans every request in flight, clears `loading`, runs `onCancel`. */
    method Cancel()
      modifies this
      ensures count == old(count) + 1
      ensures state == old(state).(loading := false)
      ensures log == old(log) + [Rendered, PluginHook(OnCancel, [])]
    {
      count := count + 1;
      SetState(Patch(Some(false), None, None, None, None, None));
      log := log + [PluginHook(OnCancel, [])];
    }

    /** `refresh()` / `refreshAsync()`: `runAsync` again with the last
        parameters, or with none when `params` is undefined. */
    method Refresh(before: seq<Option<Patch>>, request: seq<Option<nat>>) returns (r: Run)
      modifies this
      ensures count == old(count) + 1
      ensures Started(old(state), old(log), RefreshParams(old(state).params), before, request, r)
      ensures var p := RefreshParams(old(state).params);
        r.Pending? ==> r.params == p && r.token == count
      ensures Merge(before).stopNow != Some(true) ==> state.params == Merge(before).params.GetOr(Arr(RefreshParams(old(state).params)))
    {
      r := RunAsync(RefreshParams(state.params), before, request);
    }

    /** `mutate(data)` or `mutate(oldData => newData)`: the plugins'
        `onMutate` sees the new data first, then it becomes `data`. No
        service call, and `count` and `loading` are untouched. */
    method Mutate(arg: MutateArg)
      modifies this
      ensures var target := if arg.Data? then arg.v else arg.f(old(state).data);
        state == old(state).(data := target) &&
        log == old(log) + [PluginHook(OnMutate, [target]), Rendered]
      ensures count == old(count)
    {
      var target := if arg.Data? then arg.v else arg.f(state.data);
      log := log + [PluginHook(OnMutate, [target])];
      SetState(Patch(None, None, Some(target), None, None, None));
    }
  }

  datatype MutateArg = Data(v: Value) | Updater(f: Value -> Value)

  /** `run(...params)` swallows a rejection and logs it to the console when
      the user set no `onError` callback. */
  predicate RunLogsToConsole(options: Options, c: Completion)
    ensures RunLogsToConsole(options, c) ==> c.Throws?
    ensures options.onError ==> !RunLogsToConsole(options, c)
  {
    c.Throws? && !options.onError
  }

  /** Cancellation: `run(A)`, `cancel()`, `run(B)`; even when A's service
      call settles after B's, A is dropped and B's result stays. */
  method CancelledRunNeverOverwrites(a: seq<Value>, b: seq<Value>, resA: Value, resB: Value)
    returns (ca: Completion, cb: Completion, data: Value, loading: bool)
    ensures ca == Dropped && cb == Resolves(resB)
    ensures data == resB && !loading
  {
    var f := new Fetch(Options(false, false, false, false, false), NoFields);
    var ra := f.RunAsync(a, [], []);
    f.Cancel();
    var rb := f.RunAsync(b, [], []);
    cb := f.Settle(rb, Fulfilled(resB));
    f.Finish(rb, cb);
    ca := f.Settle(ra, Fulfilled(resA));
    data, loading := f.state.data, f.state.loading;
  }

  /** A newer run supersedes an older one whichever settles first. */
  method NewerRunWins(a: seq<Value>, b: seq<Value>, resA: Value, errB: Value)
    returns (ca: Completion, cb: Completion, state: FetchState)
    ensures ca == Dropped && cb == Throws(errB)
    ensures state.error == errB && state.params == Arr(b) && !state.loading
  {
    var f := new Fetch(Options(true, false, false, false, false), NoFields);
    var ra := f.RunAsync(a, [], []);
    var rb := f.RunAsync(b, [], []);
    ca := f.Settle(ra, Fulfilled(resA));
    cb := f.Settle(rb, Rejected(errB));
    state := f.state;
  }

  /** A `cancel()` made from an `onSuccess` callback keeps the plugins'
      `onFinally` from running. */
  method CancelFromCallbackSkipsFinally(p: seq<Value>, res: Value) returns (c: Completion, finallyRan: bool)
    ensures c == Resolves(res) && !finallyRan
  {
    var f := new Fetch(Options(false, false, true, false, false), NoFields);
    var r := f.RunAsync(p, [], [Some(7)]);
    c := f.Settle(r, Fulfilled(res));
    f.Cancel();
    var before := f.log;
    f.Finish(r, c);
    finallyRan := f.log != before;
  }

  /** `mutate(x)` twice leaves `data == x` and never calls the service. */
  method MutateTwice(x: Value) returns (data: Value, serviceCalls: nat, count: nat)
    ensures data == x && serviceCalls == 0 && count == 0
  {
    var f := new Fetch(Options(true, false, false, false, false), NoFields);
    f.Mutate(Data(x));
    f.Mutate(Data(x));
    data, count := f.state.data, f.count;
    serviceCalls := |set i | 0 <= i < |f.log| && f.log[i].ServiceCalled?|;
    assert f.log == [PluginHook(OnMutate, [x]), Rendered, PluginHook(OnMutate, [x]), Rendered];
    assert forall i | 0 <= i < |f.log| :: !f.log[i].ServiceCalled?;
    assert (set i | 0 <= i < |f.log| && f.log[i].ServiceCalled?) == {};
  }

  /** A plugin `onBefore` that says `stopNow` keeps the state and never
      reaches the service, unless a later plugin overrides the key. */
  lemma {:induction false} StopNowWins(before: seq<Option<Patch>>, i: nat)
    requires i < |before| && before[i].Some? && before[i].value.stopNow == Some(true)
    requires forall j | i < j < |before| :: before[j].None? || before[j].value.stopNow.None?
    ensures Merge(before).stopNow == Some(true)
    decreases |before|
  {
    var n := |before| - 1;
    if i < n {
      assert forall j | i < j < n :: before[..n][j] == before[j];
      StopNowWins(before[..n], i);
    }
  }
}
