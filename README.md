# ahooks request engine and hooks, modelled in Dafny

ahooks is a library of React hooks. This project models two parts of it.

**useRequest.** This is the asynchronous request engine:
- the `Fetch` class, which holds the request state and an invocation counter and merges the patches returned by plugin handlers;
- its plugins: cache, retry, polling, auto-run and loading-delay;
- the process-wide stores beneath them: the expiring data cache, the in-flight promise store, the per-key cache bus, the focus and visibility listener lists, and the leading-edge limiter.

A run whose counter snapshot no longer equals the counter is discarded. This is the engine's only means of cancelling.

**The small hooks.** These are data-structure or arithmetic routines once React's state cell becomes a field:
- the undo/redo timeline of useHistoryTravel;
- the keyed list of useDynamicList;
- the clamps of useCounter and usePagination;
- the key-combination matcher of useKeyPress;
- the visible range of useVirtualList;
- useSelections, useToggle, useBoolean, useSetState, useMap and useSet;
- the breakpoint table of useResponsive;
- useControllableValue, useTrackedEffect, usePrevious and useCreation.

One Dafny module per source file. `js.dfy` holds the JavaScript values shared between them:
- truthiness;
- `indexOf` and `splice`;
- insertion-ordered sets.

`timers.dfy` holds a table of pending `setTimeout` callbacks. Objects whose fields the source updates in place are classes, and pure computations are functions. Each timer firing is an explicit `Fire` method. The clock, page visibility and online status are parameters.

## Model

| member | source | states |
|---|---|---|
| RequestFetch.MergeIsLastWriterWins | src/hooks/useRequest/src/Fetch.ts:54-59 | merging the plugins' handler results keeps, for every key, the value of the last plugin that returned that key, and leaves the key absent when no plugin returned it |
| RequestFetch.LastSomeIsLatest | src/hooks/useRequest/src/Fetch.ts:56-58 | the last defined result is absent exactly when every plugin returned nothing, and otherwise it is the result of the last plugin that returned something |
| RequestFetch.ApplyAssign | src/hooks/useRequest/src/Fetch.ts:44-48 | two state updates in a row equal one update with the merged patch; an empty patch changes nothing; applying the same patch twice equals applying it once |
| RequestFetch.Fetch.constructor | src/hooks/useRequest/src/Fetch.ts:17-41 | the counter starts at 0; `loading` is `!manual` and the other fields are undefined, unless the initial state overrides them |
| RequestFetch.Fetch.SetState | src/hooks/useRequest/src/Fetch.ts:44-51 | exactly the fields present in the patch are replaced, the host is notified once, and the counter is unchanged |
| RequestFetch.Fetch.RunAsync | src/hooks/useRequest/src/Fetch.ts:64-105 | the counter goes up by one. A merged `stopNow` keeps the state and ends the run. Otherwise the state takes `loading: true`, the params and the merged patch; `returnNow` resolves at once with the merged data; failing both, the user's `onBefore` and the plugins' `onRequest` run, and the service is called only when no plugin supplied a promise |
| RequestFetch.Fetch.Settle | src/hooks/useRequest/src/Fetch.ts:107-158 | resumes a pending run with the token and params it was started with. A token that is no longer the counter changes nothing and never settles. The current token writes the result, or the error, and clears loading; then it runs the user's and the plugins' success or error callbacks and the user's `onFinally`, in the source's order, as the source does when none of those callbacks throws. `run()` logs the outcome to the console exactly when the token is current, the service rejected and the user set no `onError`, so a stale or cancelled run never logs |
| RequestFetch.Fetch.Finish | src/hooks/useRequest/src/Fetch.ts:132-135 | the plugins' `onFinally` runs with (params, data, undefined) or (params, undefined, error) only while the token is still the counter, and the state is unchanged |
| RequestFetch.Fetch.Cancel | src/hooks/useRequest/src/Fetch.ts:180-189 | the counter goes up by one, so every request in flight is orphaned; `loading` becomes false and the other fields stay; the plugins' `onCancel` runs |
| RequestFetch.Fetch.Refresh | src/hooks/useRequest/src/Fetch.ts:192-201 | exactly the run `runAsync` starts with the last params, or with none when params is undefined: the same stop, immediate-return and service-call cases, state and event log, under a new token |
| RequestFetch.Fetch.Mutate | src/hooks/useRequest/src/Fetch.ts:204-210 | `data` becomes the given value, or the updater applied to the old data. The plugins' `onMutate` sees the new data before the re-render. The counter and the other fields are unchanged |
| RequestFetch.RunLogsToConsole | src/hooks/useRequest/src/Fetch.ts:171-177 | `run()` logs to the console only when `runAsync` rejected, and never when the user set an `onError` callback; `Fetch.Settle` states which settled runs reach it |
| RequestFetch.CancelledRunNeverOverwrites | src/hooks/useRequest/src/Fetch.ts:109-112 | after run A, cancel and run B, A's result is dropped even when it arrives after B's, and B's data stays with loading false |
| RequestFetch.NewerRunWins | src/hooks/useRequest/src/Fetch.ts:140-149 | of two overlapping runs only the newer one settles; its error and its params are what the state shows |
| RequestFetch.CancelFromCallbackSkipsFinally | src/hooks/useRequest/src/Fetch.ts:127-135 | a `cancel()` made from an `onSuccess` callback keeps the plugins' `onFinally` from running, although the run itself resolved |
| RequestFetch.MutateTwice | src/hooks/useRequest/src/Fetch.ts:204-210 | mutating twice with the same value leaves that value as the data, with no service call and the counter still at 0 |
| RequestFetch.StopNowWins | src/hooks/useRequest/src/Fetch.ts:70-79 | a plugin's `stopNow: true` stops the run unless a later plugin returns the `stopNow` key as well |
| Timers.Table.Start | src/hooks/useRequest/src/utils/cache.ts:28-33 | `setTimeout` gives out a handle that was not live before and makes it live with its delay and callback; every other timer stays |
| Timers.Table.Clear | src/hooks/useRequest/src/utils/cache.ts:21-23 | `clearTimeout` of a present handle takes exactly that timer off the live table; no handle leaves the table as it was |
| Timers.Table.Fired | src/hooks/useRequest/src/utils/cache.ts:30-32 | once a live timer has run its callback it is no longer live, and exactly the other timers stay live; the table stays consistent |
| RequestCache.Doomed | src/hooks/useRequest/src/utils/cache.ts:48-57 | an array argument, even an empty one, deletes exactly its keys; a non-empty string deletes that key; `undefined` or `""` deletes every key |
| RequestCache.CacheStore.SetCache | src/hooks/useRequest/src/utils/cache.ts:17-40 | the key's previous expiry timer is cancelled; a new one is scheduled exactly when `cacheTime > -1`; the record stores the data with the new timer; every other key's entry is unchanged; the store's timer invariants are kept |
| RequestCache.CacheStore.GetCache | src/hooks/useRequest/src/utils/cache.ts:43-45 | gives the stored data exactly when the key is present, and has no side effect |
| RequestCache.CacheStore.FireExpiry | src/hooks/useRequest/src/utils/cache.ts:30-32 | a firing expiry timer deletes the key it was scheduled for and nothing else |
| RequestCache.CacheStore.ClearCacheAsWritten | src/hooks/useRequest/src/utils/cache.ts:48-57 | the doomed keys are deleted and every expiry timer, theirs included, stays live |
| RequestCache.CacheStore.ClearCache | src/hooks/useRequest/src/utils/cache.ts:48-57 | the corrected `clearCache`: the doomed keys are deleted together with their expiry timers; every live timer still belongs to the record it would delete |
| RequestCache.CacheStore.Drop | src/hooks/useRequest/src/utils/cache.ts:48-57 | the deletion the corrected `clearCache` performs: the doomed records go together with their expiry timers, every other record and timer stays, and a tidy store stays tidy |
| RequestCache.CacheStore.ClearKeys | src/hooks/useRequest/src/utils/cache.ts:51-52 | deleting a list of keys one after another removes exactly those keys and their expiry timers |
| RequestCache.ResetCancelsOldExpiry | src/hooks/useRequest/src/utils/cache.ts:19-23 | setting a key again cancels the timer of its first write, and the newer data stays |
| RequestCache.NegativeCacheTimeNeverExpires | src/hooks/useRequest/src/utils/cache.ts:27-33 | `cacheTime = -1` schedules no timer, so the entry never expires |
| RequestCache.StaleExpiryDeletesNewerEntry | src/hooks/useRequest/src/utils/cache.ts:48-57 | with `clearCache` as written, clearing a key and setting it again leaves the first timer live, and that timer deletes the newer entry |
| RequestCache.ClearedExpiryIsCancelled | src/hooks/useRequest/src/utils/cache.ts:48-57 | with the corrected `clearCache`, the same steps leave the first timer dead and the newer entry in place |
| RequestCachePromise.PromiseStore.GetCachePromise | src/hooks/useRequest/src/utils/cachePromise.ts:5-7 | gives the stored promise exactly when the key is present, and has no side effect |
| RequestCachePromise.PromiseStore.SetCachePromise | src/hooks/useRequest/src/utils/cachePromise.ts:9-27 | stores the promise itself under the key, overwriting any earlier one, and registers its settlement callback |
| RequestCachePromise.PromiseStore.Settle | src/hooks/useRequest/src/utils/cachePromise.ts:17-26 | when a promise settles, fulfilled or rejected, its key is deleted, whatever promise is stored there now |
| RequestCachePromise.SetThenGet | src/hooks/useRequest/src/utils/cachePromise.ts:5-14 | a get after a set returns the identical promise, and the other keys keep theirs |
| RequestCachePromise.OlderSettlementRemovesNewer | src/hooks/useRequest/src/utils/cachePromise.ts:17-26 | deletion is by key: an older promise that settles after a newer one was stored under its key removes the newer one |
| RequestCacheSubscribe.CacheBus.Subscribe | src/hooks/useRequest/src/utils/cacheSubscribe.ts:14-20 | appends a new listener at the end of the key's list, creating the list when it is absent; the other keys are unchanged |
| RequestCacheSubscribe.CacheBus.Unsubscribe | src/hooks/useRequest/src/utils/cacheSubscribe.ts:23-26 | `splice(indexOf(listener), 1)`: removes the listener, or the last listener when it is already gone |
| RequestCacheSubscribe.CacheBus.Trigger | src/hooks/useRequest/src/utils/cacheSubscribe.ts:7-11 | calls every listener of the key once, in list order, each with the given data; an unknown key calls none |
| RequestCacheSubscribe.SubscribeThenUnsubscribe | src/hooks/useRequest/src/utils/cacheSubscribe.ts:14-26 | a subscription undone by its own unsubscribe restores the key's list |
| RequestCacheSubscribe.DoubleUnsubscribeRemovesLast | src/hooks/useRequest/src/utils/cacheSubscribe.ts:23-26 | calling the same unsubscribe twice also removes the other subscriber's listener |
| RequestListeners.ListenerList.Subscribe | src/hooks/useRequest/src/utils/subscribeFocus.ts:11-12 | appends a new listener at the end of the list |
| RequestListeners.ListenerList.Unsubscribe | src/hooks/useRequest/src/utils/subscribeFocus.ts:14-19 | the guarded unsubscribe removes the listener if it is present and changes nothing otherwise |
| RequestListeners.ListenerList.UnsubscribeAsWritten | src/hooks/useRequest/src/utils/subscribeReVisible.ts:13-16 | the unguarded unsubscribe is `splice(indexOf(listener), 1)`; once the listener is gone, this removes the last listener |
| RequestListeners.ListenerList.Revalidate | src/hooks/useRequest/src/utils/subscribeFocus.ts:23-30 | when the gate holds, every listener is called once in list order; otherwise none is (the re-visibility list, at subscribeReVisible.ts:20-28, gates on visibility alone) |
| RequestListeners.GuardedUnsubscribe | src/hooks/useRequest/src/utils/subscribeFocus.ts:14-19 | the guarded unsubscribe is idempotent, and a subscription undone by it restores the list |
| RequestListeners.SecondUnsubscribeRemovesOther | src/hooks/useRequest/src/utils/subscribeReVisible.ts:13-16 | with the unguarded unsubscribe, calling a listener's unsubscribe twice also removes another subscriber's listener |
| RequestListeners.SecondGuardedUnsubscribeKeepsOther | src/hooks/useRequest/src/utils/subscribeFocus.ts:14-19 | with the guarded unsubscribe, the same two calls remove only that listener and keep the other |
| RequestListeners.OfflineFocusCallsNobody | src/hooks/useRequest/src/utils/subscribeFocus.ts:25 | focus revalidation while offline calls no listener, whether the page is visible or not |
| RequestLimit.Limited.Call | src/hooks/useRequest/src/utils/limit.ts:5-14 | a call runs `fn` exactly when nothing is pending, and then starts one new timer of `timespan` in the timer table; a call while pending is dropped and changes no timer; afterwards something is pending |
| RequestLimit.Limited.Fire | src/hooks/useRequest/src/utils/limit.ts:10-13 | the timer clears `pending` and is taken out of the timer table; with it no timer is left live |
| RequestLimit.BurstRunsOnce | src/hooks/useRequest/src/utils/limit.ts:2-15 | of three calls in a row only the first runs `fn`; after the timer fires, the next call runs it again |
| RequestCachePlugin.BeforePatch | src/hooks/useRequest/src/plugins/useCachePlugin.ts:81-105 | no entry gives an empty patch. An entry always contributes its data and clears the error. Only a fresh entry (`staleTime = -1` or age within `staleTime`) adds `returnNow` and `loading: false` |
| RequestCachePlugin.CachePlugin.OnBefore | src/hooks/useRequest/src/plugins/useCachePlugin.ts:81-105 | `onBefore` reads the record stored under this instance's key and returns the patch `BeforePatch` gives for it at the current time and `staleTime` |
| RequestCachePlugin.FreshEntryAnswersRun | src/hooks/useRequest/src/plugins/useCachePlugin.ts:89-104 | through the engine's merge, a fresh entry makes the run return at once with the cached data and loading false; a stale entry shows the cached data while the run goes on loading |
| RequestCachePlugin.CachePlugin.Init | src/hooks/useRequest/src/plugins/useCachePlugin.ts:47-69 | a cached entry's data and params go straight into the engine's state, with no re-render and no counter change; loading is cleared only for a fresh entry; the instance subscribes a new listener at the end of the key's list, whose closure sets this instance's data, and its current promise stays |
| RequestCachePlugin.CachePlugin.OnRequest | src/hooks/useRequest/src/plugins/useCachePlugin.ts:107-125 | a stored promise that this instance did not start is reused, with no service call and no store change; otherwise the service's promise is remembered as this instance's own and stored under the key |
| RequestCachePlugin.CachePlugin.WriteAndNotify | src/hooks/useRequest/src/plugins/useCachePlugin.ts:25-35 | the entry is written with the data, params and time, other keys keep theirs; every remaining listener of the key is called, while this instance's own is not, and the instance of each called closure takes `data` as its data, with one re-render per call and its other fields unchanged; instances with no called closure are untouched; the instance resubscribes with a closure of its own |
| RequestCachePlugin.CachePlugin.Write | src/hooks/useRequest/src/plugins/useCachePlugin.ts:131-137 | this instance's listener leaves the key's list and the entry is written with the data, params and time; other keys keep their entries, and the listeners left on the key are the old ones minus this instance's own |
| RequestCachePlugin.CachePlugin.WriteThenNotify | src/hooks/useRequest/src/plugins/useCachePlugin.ts:25-35 | after the write, exactly the listeners left on the key are called, none of them this instance's own, and each one's instance takes the data while every other instance is untouched |
| RequestCachePlugin.CachePlugin.Resubscribe | src/hooks/useRequest/src/plugins/useCachePlugin.ts:140-142 | a new listener, absent from the key's list before, joins the end of it and its closure is recorded as setting this instance's data; the plugin's invariant holds afterwards |
| RequestCachePlugin.CachePlugin.Notify | src/hooks/useRequest/src/plugins/useCachePlugin.ts:34 | `trigger` calls exactly the key's current listeners; the instance behind each of them takes the data, one re-render per call, and every other known instance is unchanged; the plugin itself, the store and the bus are unchanged |
| RequestCachePlugin.Deliver | src/hooks/useRequest/src/plugins/useCachePlugin.ts:66-68 | each called closure's `setState({ data })`: every target instance has the new data and its other state fields, its counter unchanged, and as many new re-renders as closures of it were called |
| RequestCachePlugin.CachePlugin.OnSuccess | src/hooks/useRequest/src/plugins/useCachePlugin.ts:127-144 | the result is cached with its params and time, other keys keep theirs, and every other instance's listener on the key is notified, but not this instance's own; each notified instance takes `data` as its data with one re-render per call, and unnotified instances are untouched; the key's list becomes the notified listeners plus the instance's new one, and its current promise stays |
| RequestCachePlugin.CachePlugin.OnMutate | src/hooks/useRequest/src/plugins/useCachePlugin.ts:146-160 | the same write, notification and resubscription as `onSuccess`, with the engine's current params: the entry holds the mutated data, every other instance on the key takes it as its data with one re-render per call, and the current promise stays |
| RequestCachePlugin.CachePlugin.Unmount | src/hooks/useRequest/src/plugins/useCachePlugin.ts:71-73 | on unmount the instance's listener leaves the key's list |
| RequestCachePlugin.CachePlugin.DropListener | src/hooks/useRequest/src/plugins/useCachePlugin.ts:131 | `unSubscribeRef.current?.()`: the instance's own listener, when it has one, leaves its key's list; no other key's list changes, and nothing changes without a listener |
| RequestCachePlugin.SecondInstanceSharesPromise | src/hooks/useRequest/src/plugins/useCachePlugin.ts:110-116 | a second instance on the key reuses the first one's promise instead of calling the service, while the first instance, asked again, starts a new request |
| RequestCachePlugin.SuccessNotifiesOtherInstance | src/hooks/useRequest/src/plugins/useCachePlugin.ts:127-142 | one instance's success is cached and reaches only the other instance's listener: the other instance's data becomes the new data with exactly one re-render, and the first instance's state is unchanged |
| RequestCachePlugin.MutateNotifiesOtherInstance | src/hooks/useRequest/src/plugins/useCachePlugin.ts:146-158 | one instance's mutate is cached and reaches only the other instance, whose data becomes the mutated data |
| RequestCachePlugin.FreshCacheSkipsService | src/hooks/useRequest/src/plugins/useCachePlugin.ts:89-97 | within `staleTime` of a cached success, the next run returns the cached data and never calls the service |
| RequestRetryPlugin.Pow2Monotone | src/hooks/useRequest/src/plugins/useRetryPlugin.ts:44 | `2 ** n` never decreases in `n` |
| RequestRetryPlugin.Delay | src/hooks/useRequest/src/plugins/useRetryPlugin.ts:44 | a given `retryInterval` is the delay; otherwise the backoff lies between 1000 and 30000 ms |
| RequestRetryPlugin.DefaultBackoff | src/hooks/useRequest/src/plugins/useRetryPlugin.ts:44 | the default delay is 2000, 4000, 8000, 16000 ms for the first four retries and 30000 from the fifth on, and it never decreases and stays within 1000..30000 |
| RequestRetryPlugin.RetryPlugin.OnBefore | src/hooks/useRequest/src/plugins/useRetryPlugin.ts:21-32 | the counter survives only a run started by a retry; the flag is lowered; a pending retry timer is cancelled |
| RequestRetryPlugin.RetryPlugin.OnSuccess | src/hooks/useRequest/src/plugins/useRetryPlugin.ts:33-36 | the counter goes back to 0 |
| RequestRetryPlugin.RetryPlugin.OnError | src/hooks/useRequest/src/plugins/useRetryPlugin.ts:37-55 | the counter goes up by one. A retry timer with the backoff delay is scheduled exactly when `retryCount = -1` or the counter is within `retryCount`; otherwise the counter resets |
| RequestRetryPlugin.RetryPlugin.OnCancel | src/hooks/useRequest/src/plugins/useRetryPlugin.ts:56-63 | the counter goes back to 0 and the pending retry timer is cancelled |
| RequestRetryPlugin.RetryPlugin.Fire | src/hooks/useRequest/src/plugins/useRetryPlugin.ts:45-50 | the retry timer raises the retry flag and keeps the counter for the refresh |
| RequestRetryPlugin.RetriesUpToCeiling | src/hooks/useRequest/src/plugins/useRetryPlugin.ts:21-55 | `n` failed runs in a row from a zero counter, each after the first started by the previous retry's timer: with `retryCount = -1` every failure schedules a retry and one is pending at the end; otherwise retrying stops exactly when `n` passes the ceiling, after `retryCount` retries (none for a ceiling below 1), with the counter reset; the `i`-th retry waits `retryInterval`, or the default backoff for the count `i` |
| RequestRetryPlugin.TwoRetriesThenStop | src/hooks/useRequest/src/plugins/useRetryPlugin.ts:37-55 | with `retryCount = 2` and repeated failures, the retries wait 2000 and 4000 ms, and the third failure schedules nothing and resets the counter |
| RequestRetryPlugin.ManualRunResetsCounter | src/hooks/useRequest/src/plugins/useRetryPlugin.ts:23-25 | a run not started by a retry resets the failure counter |
| RequestPollingPlugin.StopsAfterCeiling | src/hooks/useRequest/src/plugins/usePollingPlugin.ts:38-69 | driving the plugin through `n` failed polls in a row (onBefore, onError, onFinally, then the timer fires and refreshes) from a zero failure count: with the ceiling -1 a poll is scheduled after every failure and one is pending at the end; otherwise polling stops exactly when `n` passes the ceiling, after `ceiling` scheduled polls (none for a ceiling below 1), with the counter reset and no poll pending |
| RequestPollingPlugin.PollingPlugin.constructor | src/hooks/useRequest/src/plugins/usePollingPlugin.ts:9 | `pollingWhenHidden` defaults to true and `pollingErrorRetryCount` to -1 |
| RequestPollingPlugin.PollingPlugin.StopPolling | src/hooks/useRequest/src/plugins/usePollingPlugin.ts:17-24 | the poll timer is cancelled and the last re-visibility handle is unsubscribed as written: its listener is removed if it is still there, otherwise the last listener of the list is spliced out; the counter and both refs stay |
| RequestPollingPlugin.PollingPlugin.SetPollingInterval | src/hooks/useRequest/src/plugins/usePollingPlugin.ts:26-30 | a change of the interval from a truthy to a falsy value stops polling, clearing the timer and unsubscribing the last handle as written. Any other render, including a falsy interval that stays falsy, changes neither the timers nor the listener list; the counter and both refs stay |
| RequestPollingPlugin.PollingPlugin.OnBefore | src/hooks/useRequest/src/plugins/usePollingPlugin.ts:38-40 | installed only for a truthy interval; stops polling: the timer is cleared and the last handle unsubscribed as written, and the counter, both refs and the interval stay |
| RequestPollingPlugin.PollingPlugin.OnCancel | src/hooks/useRequest/src/plugins/usePollingPlugin.ts:71-73 | installed only for a truthy interval; stops polling: the timer is cleared and the last handle unsubscribed as written, and the counter, both refs and the interval stay |
| RequestPollingPlugin.PollingPlugin.OnError | src/hooks/useRequest/src/plugins/usePollingPlugin.ts:41-43 | installed only for a truthy interval; the failure counter goes up by one, and the timers, both refs and the interval stay |
| RequestPollingPlugin.PollingPlugin.OnSuccess | src/hooks/useRequest/src/plugins/usePollingPlugin.ts:44-46 | installed only for a truthy interval; the failure counter goes back to 0, and the timers, both refs and the interval stay |
| RequestPollingPlugin.PollingPlugin.OnFinally | src/hooks/useRequest/src/plugins/usePollingPlugin.ts:48-70 | installed only for a truthy interval; the next poll timer of `pollingInterval` is scheduled exactly within the failure ceiling; otherwise the counter resets and no timer is scheduled. The re-visibility ref and the interval stay |
| RequestPollingPlugin.PollingPlugin.Fire | src/hooks/useRequest/src/plugins/usePollingPlugin.ts:55-66 | the poll refreshes unless `pollingWhenHidden` is false and the page is hidden; in that case it subscribes a new re-visibility listener instead. The timer leaves the table; the counter, the timer ref and the interval stay |
| RequestPollingPlugin.PollingStopsAfterRepeatedFailure | src/hooks/useRequest/src/plugins/usePollingPlugin.ts:48-70 | with `pollingErrorRetryCount = 1`, polling goes on after one failure and stops after the second failure in a row, with the counter reset |
| RequestPollingPlugin.HiddenPollResumesOnVisibility | src/hooks/useRequest/src/plugins/usePollingPlugin.ts:58-62 | while hidden the poll waits on the re-visibility list; on visibility the listener is called; the later `onBefore` and `cancel()` both unsubscribe the same stale handle, and the second of them splices out another subscriber |
| RequestPollingPlugin.RepeatedZeroIntervalKeepsOther | src/hooks/useRequest/src/plugins/usePollingPlugin.ts:26-30 | the update effect acts only on a change: a second render with interval 0 does not splice the stale handle again, so another subscriber stays |
| RequestAutoRunPlugin.OnBefore | src/hooks/useRequest/src/plugins/useAutoRunPlugin.ts:51-57 | the handler returns a patch exactly when not ready, and that patch holds `stopNow: true` and nothing else |
| RequestAutoRunPlugin.AutoRunPlugin.Render | src/hooks/useRequest/src/plugins/useAutoRunPlugin.ts:13-47 | nothing runs on the first render. After it, a change of `ready` to true runs the default params unless manual. A `refreshDeps` change then refreshes, or calls `refreshDepsAction`, unless manual or the ready effect already ran |
| RequestAutoRunPlugin.ReadyAndDepsChangeRunOnce | src/hooks/useRequest/src/plugins/useAutoRunPlugin.ts:32-35 | `ready` turning true together with a `refreshDeps` change runs the request once, with the default params |
| RequestAutoRunPlugin.ManualNeverAutoRuns | src/hooks/useRequest/src/plugins/useAutoRunPlugin.ts:22-37 | in manual mode neither effect asks for a run |
| RequestAutoRunPlugin.NotReadyStopsRun | src/hooks/useRequest/src/plugins/useAutoRunPlugin.ts:51-57 | with `ready = false`, the engine stops the run before any service call |
| RequestLoadingDelayPlugin.AsWrittenInvertsExplicitReady | src/hooks/useRequest/src/plugins/useLoadingDelayPlugin.ts:24 | the condition as written, `!ready`, and the intended `ready !== false` agree only when `ready` is undefined |
| RequestLoadingDelayPlugin.LoadingDelayPlugin.OnBefore | src/hooks/useRequest/src/plugins/useLoadingDelayPlugin.ts:20-36 | the corrected handler cancels the pending timer, schedules a new delay timer for every run the `ready` gate lets through, and always answers `loading: false` |
| RequestLoadingDelayPlugin.LoadingDelayPlugin.OnBeforeAsWritten | src/hooks/useRequest/src/plugins/useLoadingDelayPlugin.ts:20-36 | the handler as written schedules the delay timer exactly when `ready` is falsy |
| RequestLoadingDelayPlugin.LoadingDelayPlugin.CancelTimeout | src/hooks/useRequest/src/plugins/useLoadingDelayPlugin.ts:12-16 | the pending delay timer is cancelled (`onFinally` and `onCancel`, lines 37-42) |
| RequestLoadingDelayPlugin.LoadingDelayPlugin.Fire | src/hooks/useRequest/src/plugins/useLoadingDelayPlugin.ts:25-29 | the delay timer sets `loading` to true, leaves the timer table and leaves the counter and the timer ref alone |
| RequestLoadingDelayPlugin.StoppedRunShowsLoading | src/hooks/useRequest/src/plugins/useLoadingDelayPlugin.ts:24-29 | as written, with `ready = false`, the run is stopped by the `ready` gate, yet the delay timer later shows `loading` for good |
| RequestLoadingDelayPlugin.IntendedDelay | src/hooks/useRequest/src/plugins/useLoadingDelayPlugin.ts:24-29 | with the intended condition, a gated-off run schedules no timer, and an explicitly ready run starts with loading false and shows loading after the delay |
| HistoryTravel.DumpIndex | src/hooks/useHistoryTravel/index.ts:17-27 | a forward step lands on position `step - 1` and a backward step on `length + step`, clamped into the array: beyond the end gives the last index, beyond the start gives 0 |
| HistoryTravel.Split | src/hooks/useHistoryTravel/index.ts:34-41 | the part before, the element landed on and the part after reassemble into the array, with the part before as long as the landing index |
| HistoryTravel.HistoryTravel.constructor | src/hooks/useHistoryTravel/index.ts:43-52 | the present is the initial value, the past and future are empty, and `maxLength` defaults to 0 |
| HistoryTravel.HistoryTravel.Reset | src/hooks/useHistoryTravel/index.ts:58-67 | with an argument, the argument becomes the stored initial value; the present is the initial value and both sides are emptied |
| HistoryTravel.HistoryTravel.SetValue | src/hooks/useHistoryTravel/index.ts:72-85 | the old present becomes the newest past entry; the oldest entry is dropped once the past exceeds a positive `maxLength`, so a bounded past stays bounded; the new value is the present and the future is emptied |
| HistoryTravel.HistoryTravel.Forward | src/hooks/useHistoryTravel/index.ts:90-102 | the timeline is unchanged; an empty future changes nothing; otherwise the present moves the clamped number of steps ahead |
| HistoryTravel.HistoryTravel.Backward | src/hooks/useHistoryTravel/index.ts:107-119 | the timeline is unchanged; an empty past changes nothing; otherwise the present moves back to the clamped position in the past |
| HistoryTravel.HistoryTravel.Go | src/hooks/useHistoryTravel/index.ts:122-131 | the timeline is unchanged. A step of 0, or a move towards an empty side, changes nothing. Within range, the present moves exactly `step` places, landing on the matching element of the future or the past |
| HistoryTravel.HistoryTravel.Back | src/hooks/useHistoryTravel/index.ts:139-141 | undo: the newest past entry becomes the present, and the old present becomes the first future entry; an empty past changes nothing; the timeline and the stored initial value stay |
| HistoryTravel.HistoryTravel.Forward1 | src/hooks/useHistoryTravel/index.ts:142-144 | redo: the first future entry becomes the present, and the old present becomes the newest past entry; an empty future changes nothing; the timeline and the stored initial value stay |
| HistoryTravel.SameTimeline | src/hooks/useHistoryTravel/index.ts:95-118 | two splits of one timeline at the same position agree on all three parts |
| HistoryTravel.BoundedUndo | src/hooks/useHistoryTravel/index.ts:72-85 | with `maxLength = 2`, three updates keep the two most recent earlier values; undo then redo restores the present |
| DynamicList.DynamicList.SetKey | src/hooks/useDynamicList/index.ts:26-29 | the counter goes up by one, and the new key is spliced into the key list at the index; the keys stay distinct and already issued |
| DynamicList.DynamicList.KeyAll | src/hooks/useDynamicList/index.ts:33-35 | keying every index of an n-element list from scratch gives the n next keys in order |
| DynamicList.DynamicList.constructor | src/hooks/useDynamicList/index.ts:18-37 | the initial list carries the keys 0, 1, ..., one per element |
| DynamicList.DynamicList.ResetList | src/hooks/useDynamicList/index.ts:40-48 | every element of the new list gets a new key, each greater than any key issued before |
| DynamicList.DynamicList.Insert | src/hooks/useDynamicList/index.ts:51-58 | the item and a never-used key enter at the same position, so the list and the keys stay aligned |
| DynamicList.DynamicList.Merge | src/hooks/useDynamicList/index.ts:70-79 | all the items enter at the index, and the keys are those of one `setKey(index + i)` per item, for every index. Inside the list the new keys enter at exactly the items' place, in order; at or past the end they are appended in order |
| DynamicList.DynamicList.SetKeysFrom | src/hooks/useDynamicList/index.ts:73-75 | the `forEach` over the items: one new key per item, the counter up by their number, the list untouched, and the keys those of successive `setKey(index + i)` |
| DynamicList.MergeKeysInside | src/hooks/useDynamicList/index.ts:26-29 | successive `setKey(index + i)` at an index inside the key list amount to one splice of the new keys, in order, at that index |
| DynamicList.MergeKeysPastEnd | src/hooks/useDynamicList/index.ts:26-29 | successive `setKey(index + i)` at or past the end of the key list append the new keys in order |
| DynamicList.NegativeMergeMisaligns | src/hooks/useDynamicList/index.ts:70-79 | with keys `[0, 1]`, `merge(-1, [p, q])` gives items `[x, p, q, y]` but keys `[3, 0, 2, 1]`, so the new keys do not sit next to their items |
| DynamicList.DynamicList.Replace | src/hooks/useDynamicList/index.ts:82-88 | inside the list one element is replaced; a negative index replaces no element; past the end the array grows with holes; the keys are never touched |
| DynamicList.DynamicList.Remove | src/hooks/useDynamicList/index.ts:91-104 | the element and its key leave together, and the removed key no longer occurs |
| DynamicList.DynamicList.Move | src/hooks/useDynamicList/index.ts:107-131 | moving an element to its own place changes nothing. Otherwise the element and its key are taken out and spliced in again at the new index, and they sit there together; an old index outside the element list filters nothing out and splices in `undefined`. The set of keys is unchanged, and aligned lists stay aligned |
| DynamicList.DynamicList.Push | src/hooks/useDynamicList/index.ts:134-139 | the item and a new key go at the end |
| DynamicList.DynamicList.Pop | src/hooks/useDynamicList/index.ts:142-151 | the last element and the last key go; an empty list stays empty |
| DynamicList.DynamicList.Unshift | src/hooks/useDynamicList/index.ts:154-159 | the item and a new key go at the front |
| DynamicList.DynamicList.Shift | src/hooks/useDynamicList/index.ts:162-170 | the first element and the first key go; an empty list stays empty |
| DynamicList.DynamicList.GetKey | src/hooks/useDynamicList/index.ts:61 | the key at the index, or undefined outside the list |
| DynamicList.DynamicList.GetIndex | src/hooks/useDynamicList/index.ts:64-67 | the position of the key, -1 exactly when the key is absent; the key list holds the key at that position |
| DynamicList.KeyIndexRoundTrip | src/hooks/useDynamicList/index.ts:61-67 | with no key twice, the index of the key at position `i` is `i` |
| DynamicList.InsertByRank | src/hooks/useDynamicList/index.ts:177 | one insertion step of the stable sort keeps the list ordered by the keys' current positions and adds exactly the new element |
| DynamicList.SortByRank | src/hooks/useDynamicList/index.ts:177 | sorting by the current position of each entry's key gives an ordered permutation of the input |
| DynamicList.InsertByRankStable | src/hooks/useDynamicList/index.ts:177 | an entry whose index is above all others goes after every entry of the same key position, so the stable order is kept |
| DynamicList.SortByRankStable | src/hooks/useDynamicList/index.ts:176-177 | sorting entries tagged with ascending indices orders them by key position and, within one position, by index, as the stable `Array.prototype.sort` does |
| DynamicList.KeepTruthy | src/hooks/useDynamicList/index.ts:178 | keeps exactly the entries with a truthy item, and keeps an order by key position |
| DynamicList.KeepTruthyCounts | src/hooks/useDynamicList/index.ts:178 | each truthy entry is kept as many times as it occurs, and no falsy one |
| DynamicList.KeepTruthyStable | src/hooks/useDynamicList/index.ts:178 | filtering keeps the order by key position and index |
| DynamicList.KeepTruthyAppend | src/hooks/useDynamicList/index.ts:178 | filtering a concatenation is the concatenation of the filtered parts, so the kept entries stay in their input order |
| DynamicList.SortedSurvivors | src/hooks/useDynamicList/index.ts:176-178 | the survivors are exactly the truthy entries of the result, each with its index, ordered by their key's current position and, within one position, by index |
| DynamicList.SurvivorsComplete | src/hooks/useDynamicList/index.ts:173-181 | every truthy item of the result is among the items `sortList` returns |
| DynamicList.SurvivorsSound | src/hooks/useDynamicList/index.ts:176-178 | no more survivors than result items, and every surviving item is a truthy item of the result |
| DynamicList.SortByPosition | src/hooks/useDynamicList/index.ts:173-181 | `sortList` returns only truthy items of the result and every one of them, at most as many as it was given, as the items of the stably sorted survivors |
| DynamicList.DynamicList.SortList | src/hooks/useDynamicList/index.ts:173-181 | `sortList` over the current keys: only truthy items of the result and every one of them, as the items of the survivors stably ordered by the current position of their index's key |
| Counter.TargetValue | src/hooks/useCounter/index.ts:24-34 | the result lies inside consistent bounds and is never below a given `min`. A value already inside the bounds is kept; one above `max` becomes `max`, one below `min` becomes `min`. With crossed bounds `min` wins, because `max` is applied first |
| Counter.TargetValueIdempotent | src/hooks/useCounter/index.ts:24-34 | clamping an already clamped value changes nothing, whatever the bounds |
| Counter.Target | src/hooks/useCounter/index.ts:47-55 | a number argument is clamped; an updater is applied to the current value and its result clamped |
| Counter.Counter.constructor | src/hooks/useCounter/index.ts:36-44 | the counter starts at the clamped initial value, which defaults to 0 |
| Counter.Counter.SetValue | src/hooks/useCounter/index.ts:47-55 | the state becomes the clamped target and stays a fixed point of the clamp |
| Counter.Counter.Inc | src/hooks/useCounter/index.ts:58-60 | the state becomes the clamped current value plus `delta`, where `delta` defaults to 1 |
| Counter.Counter.Dec | src/hooks/useCounter/index.ts:63-65 | the state becomes the clamped current value minus `delta`, where `delta` defaults to 1 |
| Counter.Counter.Set | src/hooks/useCounter/index.ts:68-70 | the same as `setValue` |
| Counter.Counter.Reset | src/hooks/useCounter/index.ts:73-75 | the state goes back to the clamped initial value |
| Counter.IncrementsStopAtMax | src/hooks/useCounter/index.ts:58-75 | with bounds [0, 3], increments stop at 3, a decrement gives 2, and reset gives the clamped initial value |
| Pagination.DefaultParams | src/hooks/usePagination/index.ts:20-25 | the default parameters are one object holding exactly `current` (default 1) and `pageSize` (default 10) |
| Pagination.Current | src/hooks/usePagination/index.ts:34 | a numeric `current` in the first parameter is the page; no first parameter, a non-object one, or a missing field gives page 1 |
| Pagination.PageSize | src/hooks/usePagination/index.ts:34 | a numeric `pageSize` in the first parameter is the size; no first parameter, a non-object one, or a missing field gives `defaultPageSize` |
| Pagination.Total | src/hooks/usePagination/index.ts:37 | a falsy `total` counts as 0, and a numeric one is kept |
| Pagination.TotalPage | src/hooks/usePagination/index.ts:39-42 | for a positive page size the page count is the least number of pages holding `total` items; a zero size has no finite count |
| Pagination.Clamp | src/hooks/usePagination/index.ts:48-56 | a negative page becomes 1 and a size of 0 or less becomes 1. A page past the last one becomes the last page, or 1 when there are no pages; any other page is kept |
| Pagination.OnChange | src/hooks/usePagination/index.ts:48-69 | the run receives the old first parameter with `current` and `pageSize` replaced by the clamped page, all its other fields kept, and the remaining parameters unchanged |
| Pagination.ChangeCurrent | src/hooks/usePagination/index.ts:71-73 | the run gets page `c` clamped to the pages there are, at the current page size (1 when that is not positive); all other fields of the first parameter and all other parameters are kept |
| Pagination.ChangePageSize | src/hooks/usePagination/index.ts:75-77 | the run gets size `p` (1 when not positive) and the current page clamped to the pages there are at that size; all other fields and parameters are kept |
| Pagination.ChangeCurrentKeepsPageSize | src/hooks/usePagination/index.ts:71-73 | `changeCurrent` keeps a valid page size, and lands on the page asked for whenever that page exists |
| Pagination.ChangePageSizeKeepsPage | src/hooks/usePagination/index.ts:75-77 | `changePageSize` keeps the current page whenever it still exists at the new size |
| Pagination.RefreshDepsGoesToFirstPage | src/hooks/usePagination/index.ts:27-30 | the `refreshDeps` action lands on page 1, whatever the total |
| Pagination.ClampedPageExists | src/hooks/usePagination/index.ts:48-56 | the page `onChange` moves to is at least 1, unless page 0 was asked for, and starts before the end of the items whenever there are items |
| KeyPress.AliasOf | src/hooks/useKeyPress/index.ts:35-136 | `meta` maps to the list [91, 93] on Apple devices and [91, 92] elsewhere; every other entry of the alias table is a single key code, and a name outside the table has none |
| KeyPress.ModifierCodes | src/hooks/useKeyPress/index.ts:46-92 | the codes that `countKeyByEvent` treats as modifiers, 16, 17, 18, 91 and 92, are the aliases of `shift`, `ctrl`, `alt`, `leftwindowkey` and `rightwindowkey` |
| KeyPress.Modifier | src/hooks/useKeyPress/index.ts:139-154 | exactly the four names ctrl, shift, alt and meta are modifier tests. On key-up, `meta` tests the released key's code against the `meta` alias; on key-down it reads `metaKey` |
| KeyPress.CountKeyByEvent | src/hooks/useKeyPress/index.ts:162-171 | the count is between 0 and 5. A modifier key code counts only the pressed modifiers; any other key adds one for itself. The count is 0 exactly for a modifier key code with no modifier pressed |
| KeyPress.Lower | src/hooks/useKeyPress/index.ts:194 | lower-casing keeps the length and maps every character through ASCII `toLowerCase` at the same position |
| KeyPress.JoinSplit | src/hooks/useKeyPress/index.ts:188 | splitting a filter on dots and joining the segments with dots gives the filter back |
| KeyPress.Split | src/hooks/useKeyPress/index.ts:188 | `split('.')` always gives at least one segment, so `genArr[0]` exists even for an empty filter |
| KeyPress.SplitHasNoDots | src/hooks/useKeyPress/index.ts:188 | no segment contains a dot, and there is one segment more than there are dots |
| KeyPress.FilterKeyResult | src/hooks/useKeyPress/index.ts:178-210 | the guard of one filter is either `false` or the filter itself |
| KeyPress.CountWhereAll | src/hooks/useKeyPress/index.ts:189-209 | the tally of passing segments equals the segment count exactly when every segment passes: the test `genLen === genArr.length` |
| KeyPress.CountSegments | src/hooks/useKeyPress/index.ts:189-198 | the loop's `genLen` is the number of segments that pass the test |
| KeyPress.GetFilterKey | src/hooks/useKeyPress/index.ts:178-210 | the loop of `getFilterKey` computes the stated guard: an empty `key` never matches, a number matches its own code, and a string matches when every segment counts and, under `exactMatch`, the number of keys down equals the number of segments |
| KeyPress.FindIndex | src/hooks/useKeyPress/index.ts:229 | `find` stops at the first item whose guard is truthy, and every earlier item's guard is falsy |
| KeyPress.Find | src/hooks/useKeyPress/index.ts:229 | `find` gives undefined exactly when no item's guard is truthy |
| KeyPress.Guard | src/hooks/useKeyPress/index.ts:216-233 | a function filter is applied as it is, a key goes through `getFilterKey`, a list through `find`, and any other value gives the constant `Boolean(keyFilter)` |
| KeyPress.Fired | src/hooks/useKeyPress/index.ts:249-258 | the handler is called exactly when the guard is truthy. It receives the guard when that is a string or a number, and `event.key` otherwise |
| KeyPress.EmptyKeyNeverFires | src/hooks/useKeyPress/index.ts:180-182 | an event with an empty `key`, as on browser autofill, fires no key filter and no list filter |
| KeyPress.NumberFilter | src/hooks/useKeyPress/index.ts:184-186 | a number filter fires exactly on its own key code, when that code is not 0, and hands the number to the handler |
| KeyPress.StringFilter | src/hooks/useKeyPress/index.ts:188-209 | a string filter fires exactly when it is not empty and it matches, and hands the filter string to the handler |
| KeyPress.ExactMatchIsStricter | src/hooks/useKeyPress/index.ts:205-209 | whatever matches with `exactMatch` also matches without it |
| KeyPress.MetaOnlyAsModifier | src/hooks/useKeyPress/index.ts:192-195 | the `meta` segment can count only through its modifier test, because its alias is a list and never equals a key code |
| KeyPress.SplitAtDot | src/hooks/useKeyPress/index.ts:188 | a dot-free segment followed by a dot splits off as the first segment |
| KeyPress.SplitNoDot | src/hooks/useKeyPress/index.ts:188 | a filter without dots is a single segment |
| KeyPress.CtrlAMatches | src/hooks/useKeyPress/index.ts:199-209 | `ctrl.a` matches Ctrl+A with and without `exactMatch`; with Shift also down it matches only without `exactMatch` |
| KeyPress.CtrlA | src/hooks/useKeyPress/index.ts:249-258 | on Ctrl+A the handler of a `ctrl.a` filter receives `ctrl.a`; on Ctrl+Shift+A it is not called under `exactMatch` and receives `ctrl.a` otherwise |
| VirtualList.Heights | src/hooks/useVirtualList/index.ts:48 | the height function's value for every item, in list order |
| VirtualList.SumSplit | src/hooks/useVirtualList/index.ts:82-88 | the summed heights of a prefix are the sum of a shorter prefix plus the heights in between |
| VirtualList.SumMonotone | src/hooks/useVirtualList/index.ts:82-88 | with no negative heights, the summed height grows with the prefix |
| VirtualList.SearchesAreDeterministic | src/hooks/useVirtualList/index.ts:41-74 | the offset search and the visible-end search each have a single answer |
| VirtualList.GetOffset | src/hooks/useVirtualList/index.ts:41-56 | with a fixed height, one more than the number of whole items above `scrollTop`. With variable heights, one more than the index of the first item whose running sum reaches `scrollTop`, or 1 when none does |
| VirtualList.VisibleEnd | src/hooks/useVirtualList/index.ts:63-72 | the loop's `endIndex`: the first item from `fromIndex` on whose running sum reaches the container height, or the last item; past the end it keeps its initial value |
| VirtualList.GetVisibleCountAsWritten | src/hooks/useVirtualList/index.ts:59-74 | as written: a fixed height gives `ceil(containerHeight / h)`. Variable heights give the distance to the item that fills the container, except that from past the last item the count is `-fromIndex` |
| VirtualList.GetVisibleCount | src/hooks/useVirtualList/index.ts:59-74 | the corrected count: the same, with 0 past the last item, so it is never negative for variable heights |
| VirtualList.AsWrittenCountAgrees | src/hooks/useVirtualList/index.ts:59-74 | the count as written equals the corrected one for a fixed height or when `fromIndex` is a list index; otherwise it is `-fromIndex` |
| VirtualList.DistanceTopIsPrefix | src/hooks/useVirtualList/index.ts:77-102 | `getDistanceTop(index)` is the sum of the heights above the item, and `getDistanceTop(list.length)` is `totalHeight` |
| VirtualList.DistanceTop | src/hooks/useVirtualList/index.ts:77-90 | for item heights given by a function, the distance is the sum of the heights of `list.slice(0, index)`: a negative index counts back from the end and an index past the end gives the whole sum. With no negative height it lies between 0 and `totalHeight` |
| VirtualList.TotalHeight | src/hooks/useVirtualList/index.ts:93-102 | the inner container's height is not negative when no item height is |
| VirtualList.Window | src/hooks/useVirtualList/index.ts:117-118 | the window lies within 0 and the list length; away from those bounds it starts `overscan` before the offset and ends `overscan` after the visible part |
| VirtualList.Tagged | src/hooks/useVirtualList/index.ts:129-134 | the rendered items are those from `start` to `end`, each paired with its index in the list |
| VirtualList.FixedWindowCovers | src/hooks/useVirtualList/index.ts:43-61 | with a fixed height, every item that overlaps the viewport lies between `offset - 1` and `offset + visibleCount - 1` |
| VirtualList.VariableStartCovers | src/hooks/useVirtualList/index.ts:45-55 | with variable heights, an item that overlaps the viewport is not above the item before the offset, and that item's running sum reaches `scrollTop` |
| VirtualList.VariableEndCovers | src/hooks/useVirtualList/index.ts:63-73 | with no negative heights, an item below the one that fills the container from the offset starts below the viewport |
| VirtualList.VariableWindowCovers | src/hooks/useVirtualList/index.ts:112-114 | with variable heights, an item that overlaps the viewport lies between `offset - 1` and the item that fills the container |
| VirtualList.WindowCoversItem | src/hooks/useVirtualList/index.ts:112-118 | with an overscan of at least 1, an item that overlaps the viewport is inside the rendered window |
| VirtualList.WindowCoversViewport | src/hooks/useVirtualList/index.ts:105-136 | with an overscan of at least 1 and no negative heights, every item that overlaps the viewport is rendered |
| VirtualList.VirtualList.constructor | src/hooks/useVirtualList/index.ts:21-38 | `overscan` defaults to 5; nothing is rendered and no style is set yet |
| VirtualList.VirtualList.ComputeRange | src/hooks/useVirtualList/index.ts:109-118 | the offset and the visible count as written are the searched ones and the window is taken around them. With an overscan of at least 1, no negative heights, and a fixed height or an offset that is still a list index, the window holds every item that overlaps the viewport |
| VirtualList.VirtualList.CalculateRange | src/hooks/useVirtualList/index.ts:105-136 | without a container nothing changes. Otherwise the window is rendered with its indices, the top margin is the distance to the window's start, and margin plus wrapper height is the total height; the count is the one written in the source, and the viewport is covered only under `ComputeRange`'s conditions |
| VirtualList.VirtualList.OnResize | src/hooks/useVirtualList/index.ts:139-144 | while the container has no width or no height nothing changes; otherwise the range is recalculated with the count as written, and the viewport is covered under `ComputeRange`'s conditions |
| VirtualList.VirtualList.OnScroll | src/hooks/useVirtualList/index.ts:147-161 | the first scroll event after `scrollTo` only clears the flag; any other one recalculates the range with the count as written, and the viewport is covered under `ComputeRange`'s conditions |
| VirtualList.VirtualList.ScrollTo | src/hooks/useVirtualList/index.ts:174-181 | with a container, the flag is set, the container is scrolled to the item's distance from the top, and the range is recalculated for that position with the count as written; without one, nothing changes |
| VirtualList.TallLastItemRendersNothing | src/hooks/useVirtualList/index.ts:63-73 | as written, with items 10 and 100 high, a 50-high container scrolled to 60 and overscan 1: the last item overlaps the viewport, yet the visible count is -2 and the window is empty |
| VirtualList.TallLastItemRendered | src/hooks/useVirtualList/index.ts:63-73 | with the count corrected, the same position renders the last item |
| VirtualList.ZeroOverscanSkipsTopItem | src/hooks/useVirtualList/index.ts:109-118 | with overscan 0, the partly scrolled-off first item is not rendered: the window starts at 1 |
| Selections.AddAll | src/hooks/useSelections/index.ts:37-42 | adding items to a set keeps the earlier elements in front and in order, keeps it free of repeats, and ends with exactly the old elements and the items |
| Selections.DeleteAll | src/hooks/useSelections/index.ts:45-50 | deleting items from a set leaves it free of repeats, with every item gone and every other element kept |
| Selections.Flags | src/hooks/useSelections/index.ts:53-59 | exactly one of `noneSelected`, `allSelected` and `partiallySelected` holds |
| Selections.NoneSelected | src/hooks/useSelections/index.ts:53 | `noneSelected` holds exactly when no item is in the `selected` array |
| Selections.AllSelected | src/hooks/useSelections/index.ts:56 | `allSelected` holds exactly when there is an item and every item is in the array, so an empty item list is never all selected |
| Selections.PartiallySelected | src/hooks/useSelections/index.ts:59 | `partiallySelected` holds exactly when one item is in the array and another is not |
| Selections.Selections.constructor | src/hooks/useSelections/index.ts:4-6 | the state starts as `defaultSelected` itself, or empty |
| Selections.Selections.IsSelected | src/hooks/useSelections/index.ts:9-12 | an item is selected exactly when it is in the `selected` array |
| Selections.Selections.Select | src/hooks/useSelections/index.ts:15-19 | the array becomes the set with the item added: no repeats, the item selected, every other element's membership unchanged |
| Selections.Selections.UnSelect | src/hooks/useSelections/index.ts:22-25 | the array becomes the set without the item: no repeats, the item gone, every other element's membership unchanged |
| Selections.Selections.Toggle | src/hooks/useSelections/index.ts:28-34 | the item's membership flips and no other element's changes |
| Selections.Selections.SelectAll | src/hooks/useSelections/index.ts:37-42 | the array becomes the set with every item added in turn |
| Selections.Selections.UnSelectAll | src/hooks/useSelections/index.ts:45-50 | the array becomes the set with every item deleted in turn |
| Selections.Selections.ToggleAll | src/hooks/useSelections/index.ts:62-64 | when all are selected the items are deleted, otherwise they are all added |
| Selections.SelectAllSelectsEvery | src/hooks/useSelections/index.ts:37-56 | after `selectAll` there are no repeats, the earlier selections are kept in front, and a non-empty item list is all selected |
| Selections.UnSelectAllSelectsNone | src/hooks/useSelections/index.ts:45-53 | after `unSelectAll` there are no repeats, no item is selected, and every selection that is not an item is kept |
| Selections.SelectThenUnSelect | src/hooks/useSelections/index.ts:15-25 | selecting an unselected element and then deselecting it restores the set |
| Selections.ToggleAllTwice | src/hooks/useSelections/index.ts:6-64 | items 1, 2, 3 with `[2, 2]` preselected are partly selected; `toggleAll` gives `[2, 1, 3]`, all selected, and a second one gives `[]`, none selected |
| Toggle.Make | src/hooks/useToggle/index.ts:23-32 | a missing left value is `false`, and a missing right value is the negation of the left value |
| Toggle.Apply | src/hooks/useToggle/index.ts:35-42 | `toggle` gives the right value from the left one and the left value from anything else; `set`, `setLeft` and `setRight` give their value |
| Toggle.ToggleTwice | src/hooks/useToggle/index.ts:35-36 | two toggles from the left value come back to it |
| Toggle.StaysOnTwoValues | src/hooks/useToggle/index.ts:35-42 | without `set`, a state that starts on one of the two values never leaves them |
| Toggle.TogglesAlternate | src/hooks/useToggle/index.ts:35-36 | with two different values, `n` toggles from the start land on the right value exactly when `n` is odd |
| Toggle.TogglesAlternateFrom | src/hooks/useToggle/index.ts:35-36 | with two different values, `n` toggles from either value land on the other exactly when `n` is odd |
| Toggle.BooleanToggleNegates | src/hooks/useToggle/index.ts:30-36 | with a boolean left value and no right value, `toggle` negates any boolean state |
| Boolean.Make | src/hooks/useBoolean/index.ts:11-12 | the toggle's values are `!!defaultValue` and its negation |
| Boolean.Actions | src/hooks/useBoolean/index.ts:14-26 | from a boolean state, `toggle` negates, `set(v)` gives `!!v`, and `setTrue` and `setFalse` give true and false |
| Boolean.AlwaysBoolean | src/hooks/useBoolean/index.ts:11-26 | the state is a boolean from the start and stays one after any run of actions |
| SetState.Merge | src/hooks/useSetState/index.ts:14-19 | a function patch is applied to the previous state, and a falsy result keeps the state. Otherwise the keys are the old ones plus the patch's, the patch's values win, and every other key keeps its value |
| SetState.MergeIdempotent | src/hooks/useSetState/index.ts:18 | merging the same object patch twice is the same as merging it once |
| SetState.FalsyPatchKeepsState | src/hooks/useSetState/index.ts:17-18 | `null`, `undefined` and a function returning `null` leave the state as it was |
| SetState.KeysOnlyGrow | src/hooks/useSetState/index.ts:14-19 | no sequence of patches removes a key from the state |
| MapHook.Keys | src/hooks/useMap/index.ts:6 | the keys of a map, in entry order |
| MapHook.Find | src/hooks/useMap/index.ts:36 | the position of the key, -1 exactly when no entry has it; in a map no other entry has that key |
| MapHook.Get | src/hooks/useMap/index.ts:36 | `get(k)` is `undefined` exactly when no entry has the key; otherwise it is the value of an entry for it |
| MapHook.GetAt | src/hooks/useMap/index.ts:36 | in a map, `get` finds the value of the one entry that holds the key |
| MapHook.Put | src/hooks/useMap/index.ts:13 | `map.set`: each key still occurs once, the key has the new value, and every other key keeps its value. A present key keeps its place; a new one goes last |
| MapHook.Delete | src/hooks/useMap/index.ts:27 | `map.delete`: the key is gone, every other key keeps its value, and the other entries keep their order |
| MapHook.Set | src/hooks/useMap/index.ts:10-16 | `set(k, v)` on the state copies it and sets one key: the result is a map, a present key keeps its place, and a new key goes last with every earlier entry kept |
| MapHook.Remove | src/hooks/useMap/index.ts:24-30 | `remove(k)` on the state copies it and deletes one key: the copy changes nothing, so the result is `delete` on the previous map, and an absent key leaves the map as it was |
| MapHook.FromEntries | src/hooks/useMap/index.ts:6-20 | `new Map(entries)`: each key once, a key present exactly when some entry has it, and each value taken from an entry for its key |
| MapHook.Init | src/hooks/useMap/index.ts:6-33 | the initial and reset state is a map, empty when no initial value is given |
| MapHook.CopyIsSame | src/hooks/useMap/index.ts:12-26 | `new Map(m)` is the same map, order included |
| MapHook.SetThenGet | src/hooks/useMap/index.ts:10-16 | after `set(k, v)`, `get(k)` is `v` and every other key is unchanged |
| MapHook.RemoveThenGet | src/hooks/useMap/index.ts:24-30 | after `remove(k)`, `k` is absent and every other key is unchanged; removing a key just added restores the map |
| MapHook.LastValueWins | src/hooks/useMap/index.ts:6-21 | in `new Map(entries)` a later entry for a key gives its value, and the key keeps the place of its first entry |
| SetHook.Init | src/hooks/useSet/index.ts:6-30 | `new Set(initialValue)`: no repeats and exactly the given elements; empty when none are given |
| SetHook.Add | src/hooks/useSet/index.ts:10-17 | a present key changes nothing; a new key goes last; either way the key is in the set and there are no repeats |
| SetHook.Remove | src/hooks/useSet/index.ts:20-27 | an absent key changes nothing; otherwise the key is gone and every other element stays, with no repeats |
| SetHook.AddThenRemove | src/hooks/useSet/index.ts:10-27 | adding a new key and removing it again restores the set, order included |
| Responsive.NewInfo | src/hooks/useResponsive/index.ts:43-47 | `newInfo` has exactly the configured keys, each true when the width has reached its breakpoint |
| Responsive.AnyStaleMeans | src/hooks/useResponsive/index.ts:44-51 | `shouldUpdate` is set exactly when some configured key's new value differs from `info`'s, a missing key included; a freshly built `newInfo` has no such key |
| Responsive.SameBand | src/hooks/useResponsive/index.ts:44-55 | a width inside the same breakpoints as one already calculated leaves `shouldUpdate` false |
| Responsive.DefaultKeysUnique | src/hooks/useResponsive/index.ts:16-22 | the default breakpoints `xs`, `sm`, `md`, `lg` and `xl` have different names |
| Responsive.DefaultBreakpointsNest | src/hooks/useResponsive/index.ts:16-47 | with the default breakpoints every key is present, a wider breakpoint reached means every narrower one is, and `xs` holds for any width that is not negative |
| Responsive.NewInfoAt | src/hooks/useResponsive/index.ts:47 | a configured key of `newInfo` is true exactly when the width has reached its breakpoint |
| Responsive.Notified | src/hooks/useResponsive/index.ts:32-86 | after the subscribers run, their components hold `info` and every other component keeps its state |
| Responsive.NotifiedStep | src/hooks/useResponsive/index.ts:32-34 | one more subscriber call stores `info` for that component |
| Responsive.CallSubscribers | src/hooks/useResponsive/index.ts:32-34 | calling the subscribers one after another leaves exactly the notified states |
| Responsive.Responsive.constructor | src/hooks/useResponsive/index.ts:7-38 | the default breakpoints, no `info`, no listener and no subscriber |
| Responsive.Responsive.Calculate | src/hooks/useResponsive/index.ts:41-56 | `info` is replaced by `newInfo` exactly when some key is stale, and is kept otherwise; afterwards no configured key is stale; nothing else changes |
| Responsive.Responsive.HandleResize | src/hooks/useResponsive/index.ts:25-35 | the subscribers are called exactly when `info` was replaced, and then each of their components holds the new `info`; afterwards no key is stale; the table, the subscribers and the listener stay |
| Responsive.Responsive.ConfigResponsive | src/hooks/useResponsive/index.ts:59-62 | the table is replaced; without `info` nothing is calculated, with it no key of the new table is stale afterwards |
| Responsive.Responsive.Render | src/hooks/useResponsive/index.ts:64-73 | the first render in a browser while not listening calculates `info` from empty, attaches the listener and sets `listening`; otherwise nothing changes. The result is the current `info` |
| Responsive.Responsive.Mount | src/hooks/useResponsive/index.ts:75-89 | in a browser, the component is subscribed with its initial state and the listener is attached; outside one nothing changes |
| Responsive.Responsive.Unmount | src/hooks/useResponsive/index.ts:91-100 | the component is unsubscribed, and its state dropped; when no subscriber is left the listener is removed and `listening` cleared |
| Responsive.DefaultBand | src/hooks/useResponsive/index.ts:16-22 | widths 1000 and 1100 reach the same default breakpoints |
| Responsive.MountTwo | src/hooks/useResponsive/index.ts:64-89 | two components mounted at width 800 share one listener and both are subscribed |
| Responsive.ResizeTwice | src/hooks/useResponsive/index.ts:25-56 | from width 800, a resize to 1000 crosses `lg` and calls both subscribers; a resize to 1100 then calls none |
| Responsive.UnmountBoth | src/hooks/useResponsive/index.ts:91-100 | the last of two subscribers to unmount detaches the listener |
| Responsive.TwoComponents | src/hooks/useResponsive/index.ts:25-100 | the two components are notified at 1000 and not at 1100, and the listener is gone after both unmount |
| ControllableValue.Prop | src/hooks/useControllableValue/index.ts:40-42 | a property the props lack reads as `undefined`; a present one reads as its value |
| ControllableValue.InitialValue | src/hooks/useControllableValue/index.ts:45-56 | controlled, the value prop; otherwise the props' default-value property when present, else `options.defaultValue` |
| ControllableValue.InitialPrecedence | src/hooks/useControllableValue/index.ts:45-56 | while controlled neither default is consulted; while uncontrolled, a default-value property in the props hides `options.defaultValue`, even an `undefined` one |
| ControllableValue.ControllableValue.constructor | src/hooks/useControllableValue/index.ts:40-63 | the ref starts at the initial value, and a controlled first render holds the value prop |
| ControllableValue.ControllableValue.Render | src/hooks/useControllableValue/index.ts:58-63 | controlled, the state becomes the value prop; uncontrolled, it stays; the component shows the state |
| ControllableValue.ControllableValue.SetState | src/hooks/useControllableValue/index.ts:67-79 | the new value is the argument or the updater applied to the state. Uncontrolled, the state becomes it and a re-render is asked for; controlled, nothing changes. A truthy trigger prop is called with the value followed by the extra arguments |
| ControllableValue.Uncontrolled | src/hooks/useControllableValue/index.ts:45-79 | uncontrolled from a `defaultValue` prop of 1 over the options' 9: it starts at 1, `setState(5)` shows 5, the function form then gives 6, and nothing is called |
| ControllableValue.Controlled | src/hooks/useControllableValue/index.ts:40-79 | controlled with value 1, `setState(2, "x")` keeps showing 1 and calls `onChange(2, "x")`; once the parent passes 2 the component shows 2 |
| TrackedEffect.ChangedBelow | src/hooks/useTrackedEffect/index.ts:12-19 | the indices below `n` where the two lists differ, in ascending order: an index is listed exactly when the elements differ, a missing element reading as `undefined` |
| TrackedEffect.DiffTwoDeps | src/hooks/useTrackedEffect/index.ts:9-20 | with old deps, exactly the ascending indices of the old deps whose element changed; without them, every index of the new deps; with neither, none |
| TrackedEffect.NoneChanged | src/hooks/useTrackedEffect/index.ts:13-19 | lists that agree below `n` report no change below `n` |
| TrackedEffect.SameDepsNoChanges | src/hooks/useTrackedEffect/index.ts:9-20 | equal deps report no change |
| TrackedEffect.GrownDepsOnlyComparesOld | src/hooks/useTrackedEffect/index.ts:12-19 | deps that only grew report no change, since the new elements are never compared |
| TrackedEffect.TrackedEffect.Run | src/hooks/useTrackedEffect/index.ts:22-32 | the effect gets the changes against the stored deps, the stored deps and the current deps; the current deps are then stored |
| TrackedEffect.TwoRuns | src/hooks/useTrackedEffect/index.ts:9-32 | deps `[1, 2]` then `[1, 3]`: the first run reports indices 0 and 1, the second reports index 1 and gets the first list |
| Previous.DefaultShouldUpdate | src/hooks/usePrevious/index.ts:5 | the state should update exactly when it is not the same value as the current one |
| Previous.Previous.constructor | src/hooks/usePrevious/index.ts:16-17 | both refs start unset, and the given `shouldUpdate` is kept |
| Previous.Previous.Render | src/hooks/usePrevious/index.ts:23-31 | when `shouldUpdate` accepts the state, the current value becomes the previous one and the state the current one; otherwise both stay. The previous value is returned |
| Previous.LastDistinct | src/hooks/usePrevious/index.ts:5-28 | the value before the last run of equal states is one of the states and differs from the last one |
| Previous.LastDistinctStep | src/hooks/usePrevious/index.ts:23-28 | repeating the last state keeps the previous value; a new state makes the last one previous |
| Previous.RenderAll | src/hooks/usePrevious/index.ts:9-31 | with the default `shouldUpdate`, each render returns the value before the last run of equal states, and never returns its own state |
| Previous.Sequence | src/hooks/usePrevious/index.ts:9-31 | renders with 1, 1, 2, 2, 3 return nothing, nothing, 1, 1, 2 |
| Creation.Creation.constructor | src/hooks/useCreation/index.ts:5-11 | the ref holds the first deps, no object and no `initialized` flag |
| Creation.Creation.Render | src/hooks/useCreation/index.ts:14-23 | the factory runs exactly when the ref is uninitialized or `depsAreSame` rejects the deps; then the deps and the made object are stored, otherwise nothing changes; the stored object is returned |
| Creation.LastCreation | src/hooks/useCreation/index.ts:14-20 | the render whose object is in use is one of the renders so far |
| Creation.LastCreationStep | src/hooks/useCreation/index.ts:14-20 | a next render keeps the object when its deps are accepted against those of the last creation, and creates otherwise |
| Creation.UnchangedDepsCreateOnce | src/hooks/useCreation/index.ts:14-20 | with a `depsAreSame` that accepts equal deps, unchanged deps never call the factory again |
| Creation.RenderAll | src/hooks/useCreation/index.ts:5-23 | each render returns the object of the last creation so far, and the factory runs exactly at the renders that create |
| Creation.SameThenChanged | src/hooks/useCreation/index.ts:5-23 | deps 1, 1, 2 with factory results 10, 20, 30: the results are 10, 10, 30 and the factory runs at the first and third renders |

## Left out

- JavaScript numbers are integers (`Num(int)`): floating point, `NaN` and `-0` are not modelled, and `Object.is` is equality of model values. This covers the NaN bounds of useCounter, the non-numeric values of usePagination and `Object.is` in usePrevious and useTrackedEffect. The `===` of useToggle is equality of model values too: two distinct object literals with the same fields are equal in the model but not in JavaScript.
- RequestFetch.Fetch.Settle: a user or plugin callback that throws is not modelled. In the source, a throw from `setState`, `onSuccess`, the plugins' `onSuccess` or the user's `onFinally` inside the `try` sends the run down the `catch` path: the state also takes the error, the `onError` callbacks run with the thrown value, `onFinally` runs a second time and `runAsync` rejects, so `run()` logs. `RequestFetch.Fetch.RunAsync` likewise does not model a throwing user `onBefore`, which escapes before the `try` and leaves `loading: true` set. Every callback is taken to return normally.
- Promise settlement is not modelled. A run's outcome is given to `Settle` as data, and a promise that never settles is a tag.
- The `console.error` of `run()` is not modelled. Only the condition under which it logs is kept, as `RequestFetch.RunLogsToConsole`.
- Re-entrant plugin callbacks that start a new run from inside a handler are not modelled. Only a cancel between the two counter checks is.
- Cache keys are strings. `CachedKey` also allows numbers; a number key is assumed to be its string form, so two keys that differ only in that way are not told apart.
- Pagination.DefaultParams: `...rest` is spread after the hook's own `defaultParams` and `refreshDepsAction`, so a caller who passes either option overrides the hook's value. The model always uses the hook's values.
- The auto-run plugin compares `refreshDeps` as whole sequences. React compares the deps position by position over the common length, so dependency lists that change length are not modelled as React treats them.
- A custom `setCache`/`getCache` pair in the cache plugin is not modelled. The stored record always has `data`, so the `hasOwnProperty` check is taken as true.
- The debounce, throttle and refresh-on-window-focus plugins and `useRequestImplement.ts` are lodash timing wrappers and React wiring; they are not part of this model. The focus plugin's parts, `limit` and `subscribeFocus`, are modelled directly.
- `isDocumentVisible` and `isOnline` read the browser; they are parameters.
- Timers do not run in real time. `setTimeout` adds an entry to a table, and each callback runs when the caller invokes the matching `Fire` method.
- A listener that subscribes or unsubscribes others while the list is being walked is not modelled.
- useKeyPress: listener registration, the event target and the DOM events are not modelled. An event is a record of its key, code and modifier flags.
- Pagination.Current: a `current` field that is present but not a number (`null`, a string) counts as the default 1; the source's destructuring default applies only to `undefined` and passes such a value on. Pagination.PageSize treats `pageSize` the same way.
- KeyPress.Lower: lower-casing covers ASCII `A`-`Z` only. Full Unicode `toLowerCase` (for example KELVIN SIGN U+212A to `k`) needs case tables that are not part of this model.
- KeyPress.Modifier: the `modifierKey[key]` and `aliasKeyCodeMap[...]` lookups see only the tables' own names. A segment such as `constructor` or `toString` reads an inherited `Object.prototype` member in the source, so it counts as a match there; the model does not capture this.
- DynamicList.DynamicList.Move: `oldIndex` must be a position of the key list. Outside it the source splices `undefined` into the key list, and integer keys cannot hold that.
- useDynamicList: the `console.error` of the guarded `try`/`catch` blocks is not modelled.
- useVirtualList:
  - a fixed item height must be positive. At 0 the source divides by zero and gets `Infinity`, which the integer model has no value for;
  - the browser clamping `scrollTop` is not modelled;
  - the DOM style writes are kept only as numbers;
  - the container size that `useSize` measures is a parameter.
- HistoryTravel.HistoryTravel: each method call is one render. The source's actions read that render's snapshot of `past`, `present` and `future`, so `setValue(a); setValue(b)` in one handler gives past `[...past, present]` without `a` and present `b`; the model chains the two calls, so `a` enters the past.
- useMap and useSet: keys compare by value, so object identity as a key is not modelled. React batching several updates against a stale closure is not modelled either.
- useSetState: spreading a string or an array patch into the state is not modelled. A patch's properties are those of an object value.
- useToggle: initializer functions passed as the default are not modelled.
- useResponsive:
  - `Object.keys` puts integer-like keys first; that ordering is not modelled, and the table keeps its given order;
  - the `resize` listener is an `attached` flag;
  - the window width is a parameter.
- useControllableValue:
  - only the props' own properties are modelled, so inherited properties are not;
  - calling a truthy trigger that is not a function would throw, and that is not modelled: the call is reported as its arguments;
  - `useUpdate` is a returned re-render flag;
  - `useMemoizedFn` means `setState` always sees the latest props.
- useTrackedEffect: React's own comparison of the deps, which decides whether the effect runs at all, is not modelled. `Run` is one run of the effect.
- useCreation: the factory's side effects are not modelled. Its result is a parameter of `Render`, and `depsAreSame` is a parameter of the class.

## Findings

| source | as written | input that shows it | evidently intended | confidence | as-written member | corrected member |
|---|---|---|---|---|---|---|
| src/hooks/useRequest/src/utils/cache.ts:48-57 | `clearCache` deletes entries but leaves their expiry timers pending | set key `user` with cache time 1000, clear it, set it again with cache time 300000, and let the first timer fire: the newer entry is deleted | clearing an entry also cancels its expiry timer | not executed | RequestCache.StaleExpiryDeletesNewerEntry | RequestCache.ClearedExpiryIsCancelled |
| src/hooks/useRequest/src/utils/subscribeReVisible.ts:13-16 | the returned unsubscribe splices at `indexOf(listener)` without checking for -1, and the polling plugin calls it on every stop without clearing its ref | two listeners subscribed, and the second unsubscribed twice: the second call splices at -1 and removes the other listener | an unsubscribe that finds nothing removes nothing | not executed | RequestListeners.SecondUnsubscribeRemovesOther | RequestListeners.SecondGuardedUnsubscribeKeepsOther |
| src/hooks/useRequest/src/plugins/useLoadingDelayPlugin.ts:24 | `if (!ready)` arms the delay timer only when `ready` is falsy, so an explicitly ready request is never shown loading, while a request that `ready: false` stops still gets a timer | a manual run with `ready: false` is stopped, yet its timer fires and the request shows `loading: true` for good | arm the timer unless `ready` is `false` | not executed | RequestLoadingDelayPlugin.StoppedRunShowsLoading | RequestLoadingDelayPlugin.IntendedDelay |
| src/hooks/useVirtualList/index.ts:63-73 | `endIndex` starts at 0, so when the offset is past the last item the visible count is negative | heights 10 and 100, container 50 high, scrolled to 60, overscan 1: the last item is on screen yet nothing is rendered | a visible count of 0 past the last item, so the window still reaches the offset | not executed | VirtualList.TallLastItemRendersNothing | VirtualList.TallLastItemRendered |
