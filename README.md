# Chart-info subscription multiplexer and CoinGecko response shaping, in Dafny

This project models two parts of the xrates kit.

**The chart-info sync manager** (`ChartInfoSyncManager.kt`). The manager shares one
reactive subject and one polling scheduler per chart key among any number of
subscribers. It counts subscribers per key. It tears the subject and scheduler
down when the count drops to zero. It blacklists keys for which no chart data
exists, so that later subscribers fail at once.

- `ChartInfoRegistry` states the manager as a state machine over its registries:
  subjects, schedulers, counters, failed keys and disposables. The registry
  also holds the part of the reactive library's state that the hooks depend on:
  - whether each subject is open, completed or errored;
  - which subscribers (readers) are attached to it;
  - which latest-rate feed subscriptions are still open.

  Objects the manager creates are named by fresh numbers. An event log records
  the calls made on them: scheduler created, started or stopped; feed opened or
  disposed; subject next, error or complete. Each subject also records the key
  it was created for. The invariant says that every registered subject and
  every attached reader belongs to its key. An observable can only be
  subscribed to with the subject handed out for its key, so an operation on
  one key never reaches another key's counter or subject. No operation
  removes a subject or changes the key it belongs to, so an observable
  handed out once can be subscribed to after any later operation.
- `ChartInfoSync.ChartInfoSyncManager` is the class. Its fields are the same
  registries, and its methods update them in place. Each method is proved to
  leave the fields exactly as the matching registry function says, and the
  public methods keep the registry invariant.
- `ChartInfoLifecycle` proves what a sequence of operations does:
  - the first subscription to a key creates one subject and one scheduler;
  - later subscriptions share them;
  - disposing all but the last subscriber changes only the counter;
  - disposing the last one stops the scheduler and completes the subject;
  - "no chart info" on an active key errors every subscriber, tears the key
    down and makes the next request fail at once.

**The CoinGecko provider's pure parts** (`CoinGeckoProvider.kt`):
- the page requests for the top-markets list (`CoinGeckoPaging`);
- the ticker filter, the exchange ranking and the stable sort by rank (`CoinGeckoTickers`);
- the coin details (`CoinGeckoDetails`): the links map, the platform addresses,
  the substitution of contract addresses by the coin symbol, and the
  price-change tables;
- the chart request, the thinning of chart points, and the historical-rate
  window and nearest-price choice (`CoinGeckoCharts`).

`Text` holds the ASCII lower-casing and blank tests these use. `Entities` and
`Wrappers` hold the shared value types.

Behaviour of the code that the model keeps, where a plain reading of the design differs:
- The subscribe hook (ChartInfoSyncManager.kt:36-39) runs on every subscription,
  not only on the first of an activation. So the scheduler is started again
  each time (`HookShared`).
- Every `getScheduler` call opens a fresh latest-rate feed and overwrites the
  key's disposable without disposing the old one (lines 82 and 95). Cleanup
  disposes only the last feed. After n subscriptions and n disposals, n-1
  feeds stay open (`ChartInfoLifecycle.ActivationCycle`).
- A subscriber that arrives after its subject completed receives onComplete.
  No dispose or error hook runs for it, so its increment of the counter is
  never undone (`ChartInfoRegistry.Subscribe`). Normal completion is not a
  detachment.
- `noChartInfo` on a key whose subject has no observers only blacklists the key
  (lines 57-58). The subject and any scheduler stay registered
  (`ChartInfoRegistry.NoChartInfo`).
- An observable handed out before `noChartInfo` still works on the old subject.
  Subscribing through it errors at once, but the hook first runs. `getScheduler`
  (lines 74-85) does not look at the failed keys, so a new scheduler is created,
  started and fed for the blacklisted key. The following cleanup returns early
  at line 100 because the subject is no longer registered, so that scheduler is
  never stopped (`ChartInfoLifecycle.StaleObservableAfterFailure`).

## Model

| member | source | states |
|---|---|---|
| ChartInfoRegistry.ReadersOf | xrateskit/src/main/java/io/horizontalsystems/xrateskit/chartpoint/ChartInfoSyncManager.kt:58 | the observer list of a subject holds exactly the attached readers of that subject, in attach order |
| ChartInfoRegistry.WithoutSubject | xrateskit/src/main/java/io/horizontalsystems/xrateskit/chartpoint/ChartInfoSyncManager.kt:104 | completing a subject detaches exactly its readers; every other reader stays, in order |
| ChartInfoRegistry.GetCounter | xrateskit/src/main/java/io/horizontalsystems/xrateskit/chartpoint/ChartInfoSyncManager.kt:113-121 | the counter of a key is returned and registered; an existing counter is reused unchanged, a missing one is created at 0; no other key is touched |
| ChartInfoRegistry.AddToCounter | xrateskit/src/main/java/io/horizontalsystems/xrateskit/chartpoint/ChartInfoSyncManager.kt:37 | increment/decrement of the key's counter (a missing counter counts as 0); only the observers map changes, and only at that key |
| ChartInfoRegistry.GetSubject | xrateskit/src/main/java/io/horizontalsystems/xrateskit/chartpoint/ChartInfoSyncManager.kt:63-72 | get-or-create: an existing subject is returned with nothing changed; otherwise a fresh open subject is registered for the key; no other key is touched |
| ChartInfoRegistry.GetSubjectRepeat | xrateskit/src/main/java/io/horizontalsystems/xrateskit/chartpoint/ChartInfoSyncManager.kt:63-72 | asking for the subject twice yields the same subject and the second call changes nothing |
| ChartInfoRegistry.ObserveLatestRates | xrateskit/src/main/java/io/horizontalsystems/xrateskit/chartpoint/ChartInfoSyncManager.kt:87-96 | opens a fresh latest-rate feed for the key's coin and currency and makes it the key's disposable, without disposing the previous one |
| ChartInfoRegistry.GetScheduler | xrateskit/src/main/java/io/horizontalsystems/xrateskit/chartpoint/ChartInfoSyncManager.kt:74-85 | the factory is asked only when the key has no scheduler; the registered scheduler is returned; a new feed is opened on every call |
| ChartInfoRegistry.GetSchedulerRepeat | xrateskit/src/main/java/io/horizontalsystems/xrateskit/chartpoint/ChartInfoSyncManager.kt:74-85 | a second call returns the same scheduler without a factory call, but opens another feed and replaces the key's disposable |
| ChartInfoRegistry.CompleteSubject | xrateskit/src/main/java/io/horizontalsystems/xrateskit/chartpoint/ChartInfoSyncManager.kt:104-105 | the key's subject is completed (terminal states stay terminal), its readers detached and it is unregistered |
| ChartInfoRegistry.StopScheduler | xrateskit/src/main/java/io/horizontalsystems/xrateskit/chartpoint/ChartInfoSyncManager.kt:107-108 | the key's scheduler, if any, is stopped and unregistered; nothing else changes |
| ChartInfoRegistry.DisposeFeed | xrateskit/src/main/java/io/horizontalsystems/xrateskit/chartpoint/ChartInfoSyncManager.kt:110 | the key's disposable, if any, is disposed (its feed is closed) while the map entry stays |
| ChartInfoRegistry.Cleanup | xrateskit/src/main/java/io/horizontalsystems/xrateskit/chartpoint/ChartInfoSyncManager.kt:98-111 | cleanup is a no-op when the key has no subject or its counter is positive; it never touches the allocator, the failed keys or the disposables map |
| ChartInfoRegistry.CleanupFires | xrateskit/src/main/java/io/horizontalsystems/xrateskit/chartpoint/ChartInfoSyncManager.kt:98-111 | with a subject and a non-positive counter: subject completed and unregistered, scheduler stopped and unregistered, feed disposed, in that order in the event log |
| ChartInfoRegistry.CleanupKeepsTerminated | xrateskit/src/main/java/io/horizontalsystems/xrateskit/chartpoint/ChartInfoSyncManager.kt:104 | cleanup never reopens a completed or errored subject |
| ChartInfoRegistry.CleanupOtherKeys | xrateskit/src/main/java/io/horizontalsystems/xrateskit/chartpoint/ChartInfoSyncManager.kt:98-111 | cleanup leaves every other key's registry entries as they were |
| ChartInfoRegistry.CleanupTwice | xrateskit/src/main/java/io/horizontalsystems/xrateskit/chartpoint/ChartInfoSyncManager.kt:98-111 | cleanup is idempotent: a second cleanup of the same key changes nothing |
| ChartInfoRegistry.Detach | xrateskit/src/main/java/io/horizontalsystems/xrateskit/chartpoint/ChartInfoSyncManager.kt:40-47 | the dispose/error hook: counter decremented; subject and scheduler torn down exactly when the counter drops to 0 or below; other keys untouched |
| ChartInfoRegistry.ChartInfoObservable | xrateskit/src/main/java/io/horizontalsystems/xrateskit/chartpoint/ChartInfoSyncManager.kt:29-48 | a failed key yields an immediate error with no state change; otherwise the key's (possibly new) subject is handed out; every existing subject stays and keeps its key |
| ChartInfoRegistry.SubscribeHook | xrateskit/src/main/java/io/horizontalsystems/xrateskit/chartpoint/ChartInfoSyncManager.kt:36-39 | on every subscription the counter goes up by one, the scheduler is get-or-created and started, and a new feed is opened |
| ChartInfoRegistry.Subscribe | xrateskit/src/main/java/io/horizontalsystems/xrateskit/chartpoint/ChartInfoSyncManager.kt:35-47 | for a subject that belongs to the observable's key: every subject stays and keeps its key; the hook runs first; the subscriber attaches iff the subject is open, gets onComplete (counter stays raised) iff it is completed, and runs the error hook iff it is errored; failed keys are not changed |
| ChartInfoRegistry.Dispose | xrateskit/src/main/java/io/horizontalsystems/xrateskit/chartpoint/ChartInfoSyncManager.kt:40-43 | disposing an attached reader removes it and runs the dispose hook; disposing a finished subscription changes nothing; every subject stays and keeps its key |
| ChartInfoRegistry.DetachAll | xrateskit/src/main/java/io/horizontalsystems/xrateskit/chartpoint/ChartInfoSyncManager.kt:59 | the error hooks of the given readers, in order: they keep the allocator and the failed keys, remove no subject and change no subject's key |
| ChartInfoRegistry.OnUpdate | xrateskit/src/main/java/io/horizontalsystems/xrateskit/chartpoint/ChartInfoSyncManager.kt:52-54 | an update reaches the key's registered subject, and is dropped when there is none |
| ChartInfoRegistry.NoChartInfo | xrateskit/src/main/java/io/horizontalsystems/xrateskit/chartpoint/ChartInfoSyncManager.kt:56-61 | the key is always blacklisted; the subject errors, and every reader runs its error hook, only when the subject exists and has observers; every subject stays and keeps its key |
| ChartInfoRegistry.OnFeedValue | xrateskit/src/main/java/io/horizontalsystems/xrateskit/chartpoint/ChartInfoSyncManager.kt:90-91 | a value on an open feed asks the chart manager to update the feed's key; a disposed feed delivers nothing |
| ChartInfoRegistry.OnFeedError | xrateskit/src/main/java/io/horizontalsystems/xrateskit/chartpoint/ChartInfoSyncManager.kt:92-94 | a feed error only ends that feed; no registry entry of any key changes |
| ChartInfoRegistry.CleanupWf | xrateskit/src/main/java/io/horizontalsystems/xrateskit/chartpoint/ChartInfoSyncManager.kt:98-111 | cleanup preserves the registry invariant |
| ChartInfoRegistry.CompleteSubjectWf | xrateskit/src/main/java/io/horizontalsystems/xrateskit/chartpoint/ChartInfoSyncManager.kt:104-105 | completing and unregistering a key's subject preserves the registry invariant, including that every registered subject and every reader belongs to its key |
| ChartInfoRegistry.DetachWf | xrateskit/src/main/java/io/horizontalsystems/xrateskit/chartpoint/ChartInfoSyncManager.kt:40-47 | the dispose/error hook preserves the registry invariant |
| ChartInfoRegistry.ChartInfoObservableWf | xrateskit/src/main/java/io/horizontalsystems/xrateskit/chartpoint/ChartInfoSyncManager.kt:29-48 | handing out an observable preserves the registry invariant and the handed-out subject is registered as belonging to the key |
| ChartInfoRegistry.SubscribeHookWf | xrateskit/src/main/java/io/horizontalsystems/xrateskit/chartpoint/ChartInfoSyncManager.kt:36-39 | the subscribe hook preserves the registry invariant |
| ChartInfoRegistry.SubscribeWf | xrateskit/src/main/java/io/horizontalsystems/xrateskit/chartpoint/ChartInfoSyncManager.kt:35-47 | subscribing preserves the registry invariant |
| ChartInfoRegistry.SubscribeOtherKeys | xrateskit/src/main/java/io/horizontalsystems/xrateskit/chartpoint/ChartInfoSyncManager.kt:35-47 | subscribing to a key leaves every other key's registry entries as they were |
| ChartInfoRegistry.DisposeWf | xrateskit/src/main/java/io/horizontalsystems/xrateskit/chartpoint/ChartInfoSyncManager.kt:40-43 | disposing preserves the registry invariant |
| ChartInfoRegistry.DetachAllWf | xrateskit/src/main/java/io/horizontalsystems/xrateskit/chartpoint/ChartInfoSyncManager.kt:59 | running the error hooks of any readers preserves the registry invariant |
| ChartInfoRegistry.DetachAllOtherKeys | xrateskit/src/main/java/io/horizontalsystems/xrateskit/chartpoint/ChartInfoSyncManager.kt:59 | running the error hooks of readers of one key leaves every other key's registry entries as they were |
| ChartInfoRegistry.NoChartInfoWf | xrateskit/src/main/java/io/horizontalsystems/xrateskit/chartpoint/ChartInfoSyncManager.kt:56-61 | noChartInfo preserves the registry invariant |
| ChartInfoRegistry.NoChartInfoOtherKeys | xrateskit/src/main/java/io/horizontalsystems/xrateskit/chartpoint/ChartInfoSyncManager.kt:56-61 | noChartInfo on a key leaves every other key's registry entries as they were |
| ChartInfoLifecycle.SubscribeOnce | xrateskit/src/main/java/io/horizontalsystems/xrateskit/chartpoint/ChartInfoSyncManager.kt:29-48 | a consumer subscribing once keeps the invariant; a failed key fails fast with no state change |
| ChartInfoLifecycle.HookFresh | xrateskit/src/main/java/io/horizontalsystems/xrateskit/chartpoint/ChartInfoSyncManager.kt:36-39 | for a key without a scheduler the hook creates one, opens a feed and starts the scheduler, in that order |
| ChartInfoLifecycle.HookShared | xrateskit/src/main/java/io/horizontalsystems/xrateskit/chartpoint/ChartInfoSyncManager.kt:36-39 | for a key with a scheduler the hook reuses it, opens another feed and starts the scheduler again |
| ChartInfoLifecycle.SubscribeOnceFresh | xrateskit/src/main/java/io/horizontalsystems/xrateskit/chartpoint/ChartInfoSyncManager.kt:29-48 | the first subscription to an idle key creates subject, scheduler and feed and attaches the reader |
| ChartInfoLifecycle.SubscribeOnceShared | xrateskit/src/main/java/io/horizontalsystems/xrateskit/chartpoint/ChartInfoSyncManager.kt:29-48 | a further subscription to an active key reuses subject and scheduler and attaches the reader |
| ChartInfoLifecycle.DisposeOldest | xrateskit/src/main/java/io/horizontalsystems/xrateskit/chartpoint/ChartInfoSyncManager.kt:40-43 | disposing the oldest reader only decrements while others remain, and tears the key down when it was the last |
| ChartInfoLifecycle.FeedOpenedFor | xrateskit/src/main/java/io/horizontalsystems/xrateskit/chartpoint/ChartInfoSyncManager.kt:82 | every getScheduler call adds one open feed to the key |
| ChartInfoLifecycle.FirstSubscribe | xrateskit/src/main/java/io/horizontalsystems/xrateskit/chartpoint/ChartInfoSyncManager.kt:29-48 | first subscription to an idle key: reader attached, fresh subject and scheduler registered, counter 1, log = created, feed opened, started; other keys untouched |
| ChartInfoLifecycle.SubscribeStep | xrateskit/src/main/java/io/horizontalsystems/xrateskit/chartpoint/ChartInfoSyncManager.kt:35-39 | a subscription to an active key attaches a reader, raises the counter by one, starts the scheduler again and leaves one more open feed |
| ChartInfoLifecycle.DisposeStep | xrateskit/src/main/java/io/horizontalsystems/xrateskit/chartpoint/ChartInfoSyncManager.kt:40-43 | disposing the oldest of several readers only lowers the counter; subject and scheduler stay |
| ChartInfoLifecycle.DisposeLast | xrateskit/src/main/java/io/horizontalsystems/xrateskit/chartpoint/ChartInfoSyncManager.kt:40-43 | disposing the last reader completes and unregisters the subject, stops and unregisters the scheduler, disposes the current feed, counter 0 |
| ChartInfoLifecycle.TeardownIdle | xrateskit/src/main/java/io/horizontalsystems/xrateskit/chartpoint/ChartInfoSyncManager.kt:98-111 | after the last reader leaves, the subject has no readers, one feed fewer is open and other keys are untouched |
| ChartInfoLifecycle.SubscribeTimesHolds | xrateskit/src/main/java/io/horizontalsystems/xrateskit/chartpoint/ChartInfoSyncManager.kt:29-48 | n subscriptions to an idle key share one subject and one scheduler, with counter n and n open feeds more |
| ChartInfoLifecycle.DisposeAllHolds | xrateskit/src/main/java/io/horizontalsystems/xrateskit/chartpoint/ChartInfoSyncManager.kt:40-43 | disposing every reader of an active key stops its scheduler and completes its subject, counter back to 0 |
| ChartInfoLifecycle.ActivationCycle | xrateskit/src/main/java/io/horizontalsystems/xrateskit/chartpoint/ChartInfoSyncManager.kt:29-48 | n subscriptions then n disposals: one shared subject/scheduler while active, full teardown afterwards, but n-1 feeds left open |
| ChartInfoLifecycle.DetachAllCount | xrateskit/src/main/java/io/horizontalsystems/xrateskit/chartpoint/ChartInfoSyncManager.kt:44-47 | the error hooks of all readers of a key amount to one decrement from 1 followed by cleanup |
| ChartInfoLifecycle.DetachFirst | xrateskit/src/main/java/io/horizontalsystems/xrateskit/chartpoint/ChartInfoSyncManager.kt:44-47 | an error hook that is not the last one only lowers the counter |
| ChartInfoLifecycle.CleanupTerminated | xrateskit/src/main/java/io/horizontalsystems/xrateskit/chartpoint/ChartInfoSyncManager.kt:98-111 | cleanup of a key whose subject has already terminated and whose counter is not positive unregisters subject and scheduler, detaches the subject's readers and disposes the feed, leaving the subject's state as it was |
| ChartInfoLifecycle.LastErrorHook | xrateskit/src/main/java/io/horizontalsystems/xrateskit/chartpoint/ChartInfoSyncManager.kt:44-47 | the last error hook, run on the errored subject with the counter at 1, tears the key down: subject unregistered, scheduler stopped, feed disposed, counter 0 |
| ChartInfoLifecycle.NoChartInfoShape | xrateskit/src/main/java/io/horizontalsystems/xrateskit/chartpoint/ChartInfoSyncManager.kt:56-61 | noChartInfo on an active key errors the subject, then tears the key down as the last error hook runs |
| ChartInfoLifecycle.ErrorTeardownIdle | xrateskit/src/main/java/io/horizontalsystems/xrateskit/chartpoint/ChartInfoSyncManager.kt:56-61 | after the error teardown the subject has no readers and one feed fewer is open |
| ChartInfoLifecycle.NoChartInfoOnActiveKey | xrateskit/src/main/java/io/horizontalsystems/xrateskit/chartpoint/ChartInfoSyncManager.kt:56-61 | noChartInfo on an active key: blacklisted, subject errored and unregistered, scheduler stopped, feed disposed, counter 0, every other key untouched, and the next observable fails fast |
| ChartInfoLifecycle.NoChartInfoOrphans | xrateskit/src/main/java/io/horizontalsystems/xrateskit/chartpoint/ChartInfoSyncManager.kt:56-61 | noChartInfo on an active key leaves it blacklisted with no subject, no scheduler and counter 0, while its former subject is errored and still belongs to it |
| ChartInfoLifecycle.SubscribeToOrphanedSubject | xrateskit/src/main/java/io/horizontalsystems/xrateskit/chartpoint/ChartInfoSyncManager.kt:74-85 | subscribing to such an orphaned subject errors at once, yet creates, starts and feeds a new scheduler for the key, and a cleanup of the key leaves that scheduler running |
| ChartInfoLifecycle.StaleObservableAfterFailure | xrateskit/src/main/java/io/horizontalsystems/xrateskit/chartpoint/ChartInfoSyncManager.kt:29-61 | after noChartInfo on an active key, subscribing through an observable handed out earlier errors at once yet creates, starts and feeds a new scheduler for the failed key, which the following cleanup leaves running |
| ChartInfoSync.ChartInfoSyncManager.constructor | xrateskit/src/main/java/io/horizontalsystems/xrateskit/chartpoint/ChartInfoSyncManager.kt:16-27 | a new manager has empty registries |
| ChartInfoSync.ChartInfoSyncManager.GetCounter | xrateskit/src/main/java/io/horizontalsystems/xrateskit/chartpoint/ChartInfoSyncManager.kt:113-121 | updates the fields as ChartInfoRegistry.GetCounter |
| ChartInfoSync.ChartInfoSyncManager.GetSubject | xrateskit/src/main/java/io/horizontalsystems/xrateskit/chartpoint/ChartInfoSyncManager.kt:63-72 | updates the fields as ChartInfoRegistry.GetSubject |
| ChartInfoSync.ChartInfoSyncManager.ObserveLatestRates | xrateskit/src/main/java/io/horizontalsystems/xrateskit/chartpoint/ChartInfoSyncManager.kt:87-96 | updates the fields as ChartInfoRegistry.ObserveLatestRates |
| ChartInfoSync.ChartInfoSyncManager.GetScheduler | xrateskit/src/main/java/io/horizontalsystems/xrateskit/chartpoint/ChartInfoSyncManager.kt:74-85 | updates the fields as ChartInfoRegistry.GetScheduler |
| ChartInfoSync.ChartInfoSyncManager.CompleteSubject | xrateskit/src/main/java/io/horizontalsystems/xrateskit/chartpoint/ChartInfoSyncManager.kt:104-105 | updates the fields as ChartInfoRegistry.CompleteSubject |
| ChartInfoSync.ChartInfoSyncManager.StopScheduler | xrateskit/src/main/java/io/horizontalsystems/xrateskit/chartpoint/ChartInfoSyncManager.kt:107-108 | updates the fields as ChartInfoRegistry.StopScheduler |
| ChartInfoSync.ChartInfoSyncManager.DisposeFeed | xrateskit/src/main/java/io/horizontalsystems/xrateskit/chartpoint/ChartInfoSyncManager.kt:110 | updates the fields as ChartInfoRegistry.DisposeFeed |
| ChartInfoSync.ChartInfoSyncManager.Cleanup | xrateskit/src/main/java/io/horizontalsystems/xrateskit/chartpoint/ChartInfoSyncManager.kt:98-111 | updates the fields as ChartInfoRegistry.Cleanup |
| ChartInfoSync.ChartInfoSyncManager.Detach | xrateskit/src/main/java/io/horizontalsystems/xrateskit/chartpoint/ChartInfoSyncManager.kt:40-47 | updates the fields as ChartInfoRegistry.Detach |
| ChartInfoSync.ChartInfoSyncManager.ChartInfoObservable | xrateskit/src/main/java/io/horizontalsystems/xrateskit/chartpoint/ChartInfoSyncManager.kt:29-48 | updates the fields as ChartInfoRegistry.ChartInfoObservable, keeps the manager valid and hands out a subject that belongs to the key; every subject stays and keeps its key |
| ChartInfoSync.ChartInfoSyncManager.SubscribeHook | xrateskit/src/main/java/io/horizontalsystems/xrateskit/chartpoint/ChartInfoSyncManager.kt:36-39 | updates the fields as ChartInfoRegistry.SubscribeHook |
| ChartInfoSync.ChartInfoSyncManager.Attach | xrateskit/src/main/java/io/horizontalsystems/xrateskit/chartpoint/ChartInfoSyncManager.kt:35 | the new reader is appended to the subject's observers under a fresh id; nothing else changes |
| ChartInfoSync.ChartInfoSyncManager.Subscribe | xrateskit/src/main/java/io/horizontalsystems/xrateskit/chartpoint/ChartInfoSyncManager.kt:35-47 | updates the fields as ChartInfoRegistry.Subscribe and keeps the manager valid; every subject stays and keeps its key |
| ChartInfoSync.ChartInfoSyncManager.Dispose | xrateskit/src/main/java/io/horizontalsystems/xrateskit/chartpoint/ChartInfoSyncManager.kt:40-43 | updates the fields as ChartInfoRegistry.Dispose and keeps the manager valid; every subject stays and keeps its key |
| ChartInfoSync.ChartInfoSyncManager.OnUpdate | xrateskit/src/main/java/io/horizontalsystems/xrateskit/chartpoint/ChartInfoSyncManager.kt:52-54 | updates the fields as ChartInfoRegistry.OnUpdate and keeps the manager valid; every subject stays and keeps its key |
| ChartInfoSync.ChartInfoSyncManager.DetachReaders | xrateskit/src/main/java/io/horizontalsystems/xrateskit/chartpoint/ChartInfoSyncManager.kt:59 | runs the error hook of each reader in order, as ChartInfoRegistry.DetachAll |
| ChartInfoSync.ChartInfoSyncManager.ErrorSubject | xrateskit/src/main/java/io/horizontalsystems/xrateskit/chartpoint/ChartInfoSyncManager.kt:59 | the subject becomes errored, its readers are detached and the error is logged; nothing else changes |
| ChartInfoSync.ChartInfoSyncManager.NoChartInfo | xrateskit/src/main/java/io/horizontalsystems/xrateskit/chartpoint/ChartInfoSyncManager.kt:56-61 | updates the fields as ChartInfoRegistry.NoChartInfo and keeps the manager valid; every subject stays and keeps its key |
| ChartInfoSync.ChartInfoSyncManager.OnFeedValue | xrateskit/src/main/java/io/horizontalsystems/xrateskit/chartpoint/ChartInfoSyncManager.kt:90-91 | updates the fields as ChartInfoRegistry.OnFeedValue and keeps the manager valid; every subject stays and keeps its key |
| ChartInfoSync.ChartInfoSyncManager.OnFeedError | xrateskit/src/main/java/io/horizontalsystems/xrateskit/chartpoint/ChartInfoSyncManager.kt:92-94 | updates the fields as ChartInfoRegistry.OnFeedError and keeps the manager valid; every subject stays and keeps its key |
| CoinGeckoPaging.PageCount | xrateskit/src/main/java/io/horizontalsystems/xrateskit/providers/coingecko/CoinGeckoProvider.kt:83-100 | at least one page is always requested |
| CoinGeckoPaging.PageAt | xrateskit/src/main/java/io/horizontalsystems/xrateskit/providers/coingecko/CoinGeckoProvider.kt:93 | page i has number i+1 and asks for at most 250 coins |
| CoinGeckoPaging.TopMarketsPages | xrateskit/src/main/java/io/horizontalsystems/xrateskit/providers/coingecko/CoinGeckoProvider.kt:83-100 | the loop emits exactly PageCount pages, page i being PageAt(i) |
| CoinGeckoPaging.PageShape | xrateskit/src/main/java/io/horizontalsystems/xrateskit/providers/coingecko/CoinGeckoProvider.kt:89-100 | a non-positive count gives one page asking for that count; otherwise every page but the last asks for 250 and the last for the remaining 1..250 |
| CoinGeckoPaging.FullPagesTotal | xrateskit/src/main/java/io/horizontalsystems/xrateskit/providers/coingecko/CoinGeckoProvider.kt:89-100 | the full pages before the last ask for 250 coins each |
| CoinGeckoPaging.PagesCoverCount | xrateskit/src/main/java/io/horizontalsystems/xrateskit/providers/coingecko/CoinGeckoProvider.kt:83-100 | for a positive count the pages ask for exactly that many coins in total |
| Text.LowerChar | xrateskit/src/main/java/io/horizontalsystems/xrateskit/providers/coingecko/CoinGeckoProvider.kt:259 | upper-case ASCII letters map to lower case, every other character is kept |
| Text.Lower | xrateskit/src/main/java/io/horizontalsystems/xrateskit/providers/coingecko/CoinGeckoProvider.kt:259 | lower-casing keeps the length and maps each character |
| Text.LowerIdempotent | xrateskit/src/main/java/io/horizontalsystems/xrateskit/providers/coingecko/CoinGeckoProvider.kt:259 | lower-casing twice is lower-casing once |
| CoinGeckoTickers.AllAddressCharsIff | xrateskit/src/main/java/io/horizontalsystems/xrateskit/providers/coingecko/CoinGeckoProvider.kt:227 | the recursive character test accepts exactly strings of letters A..z and digits |
| CoinGeckoTickers.SmartContractAddressIff | xrateskit/src/main/java/io/horizontalsystems/xrateskit/providers/coingecko/CoinGeckoProvider.kt:224-228 | `IsSmartContractAddress`: a smart-contract address is exactly 42 characters: 0, x or X, then 40 characters from A..z or digits |
| CoinGeckoTickers.UnderscoresAreAnAddress | xrateskit/src/main/java/io/horizontalsystems/xrateskit/providers/coingecko/CoinGeckoProvider.kt:227 | the A-z class also admits characters between Z and a, such as an underscore |
| CoinGeckoTickers.FilterTickers | xrateskit/src/main/java/io/horizontalsystems/xrateskit/providers/coingecko/CoinGeckoProvider.kt:207 | the kept tickers are exactly the input tickers that pass the filter |
| CoinGeckoTickers.FilterTickersAppend | xrateskit/src/main/java/io/horizontalsystems/xrateskit/providers/coingecko/CoinGeckoProvider.kt:207 | filtering keeps input order: the tickers accepted from a concatenation are those accepted from each part, in turn |
| CoinGeckoTickers.FilterTickersCount | xrateskit/src/main/java/io/horizontalsystems/xrateskit/providers/coingecko/CoinGeckoProvider.kt:207 | filtering keeps every accepted ticker as many times as the input holds it and drops every rejected one |
| CoinGeckoTickers.FilterWithRank | xrateskit/src/main/java/io/horizontalsystems/xrateskit/providers/coingecko/CoinGeckoProvider.kt:207-208 | the accepted tickers of one rank are the accepted ones among the input tickers of that rank, in input order |
| CoinGeckoTickers.FilterTickerIff | xrateskit/src/main/java/io/horizontalsystems/xrateskit/providers/coingecko/CoinGeckoProvider.kt:216-222 | `FilterTicker`: a ticker passes iff rate and volume are non-zero and neither base nor target is a smart-contract address |
| CoinGeckoTickers.ExchangeRankRange | xrateskit/src/main/java/io/horizontalsystems/xrateskit/providers/coingecko/CoinGeckoProvider.kt:29-52 | listed exchanges rank 1..18 in the listed order, binance first; any other exchange ranks Int.MAX_VALUE |
| CoinGeckoTickers.RankedExchangesInverse | xrateskit/src/main/java/io/horizontalsystems/xrateskit/providers/coingecko/CoinGeckoProvider.kt:29-52 | each listed exchange sits at its rank in the listed order |
| CoinGeckoTickers.ExchangeRankInjective | xrateskit/src/main/java/io/horizontalsystems/xrateskit/providers/coingecko/CoinGeckoProvider.kt:29-52 | no two listed exchanges share a rank |
| CoinGeckoTickers.InsertByRank | xrateskit/src/main/java/io/horizontalsystems/xrateskit/providers/coingecko/CoinGeckoProvider.kt:208 | insertion adds exactly the one ticker |
| CoinGeckoTickers.SortByRank | xrateskit/src/main/java/io/horizontalsystems/xrateskit/providers/coingecko/CoinGeckoProvider.kt:208 | sorting is a permutation |
| CoinGeckoTickers.InsertKeepsSorted | xrateskit/src/main/java/io/horizontalsystems/xrateskit/providers/coingecko/CoinGeckoProvider.kt:208 | inserting into a rank-sorted list keeps it sorted |
| CoinGeckoTickers.InsertWithRank | xrateskit/src/main/java/io/horizontalsystems/xrateskit/providers/coingecko/CoinGeckoProvider.kt:208 | insertion places the new ticker after those of equal rank |
| CoinGeckoTickers.SortByRankSpec | xrateskit/src/main/java/io/horizontalsystems/xrateskit/providers/coingecko/CoinGeckoProvider.kt:208 | sortedBy: sorted by rank, a permutation, and stable (tickers of equal rank keep their order) |
| CoinGeckoTickers.MarketTickersSpec | xrateskit/src/main/java/io/horizontalsystems/xrateskit/providers/coingecko/CoinGeckoProvider.kt:206-211 | `MarketTickers`: the market tickers are the filtered tickers sorted by exchange rank, each mapped field for field; the tickers of one rank are the accepted input tickers of that rank, in input order |
| CoinGeckoDetails.BuildLinks | xrateskit/src/main/java/io/horizontalsystems/xrateskit/providers/coingecko/CoinGeckoProvider.kt:234-255 | website and github are present iff their lists are non-empty, and hold the first entry even when it is blank; twitter, telegram and reddit are present iff the field is non-null and non-blank; twitter and telegram get their URL prefixes |
| CoinGeckoDetails.PlatformTypeOfSpec | xrateskit/src/main/java/io/horizontalsystems/xrateskit/providers/coingecko/CoinGeckoProvider.kt:259-267 | `PlatformTypeOf`: the platform type ignores letter case and is Other unless the key is one of the five known names |
| CoinGeckoDetails.PlatformsPresent | xrateskit/src/main/java/io/horizontalsystems/xrateskit/providers/coingecko/CoinGeckoProvider.kt:257-270 | `Platforms`: a platform type is present iff some entry with a non-blank address maps to it |
| CoinGeckoDetails.PlatformsLastWins | xrateskit/src/main/java/io/horizontalsystems/xrateskit/providers/coingecko/CoinGeckoProvider.kt:257-270 | the address kept for a platform type is the one of the last entry that maps to it |
| CoinGeckoDetails.PlatformsNonBlank | xrateskit/src/main/java/io/horizontalsystems/xrateskit/providers/coingecko/CoinGeckoProvider.kt:258 | no kept address is blank |
| CoinGeckoDetails.ContractAddresses | xrateskit/src/main/java/io/horizontalsystems/xrateskit/providers/coingecko/CoinGeckoProvider.kt:272 | the contract addresses are exactly the lower-cased platform addresses |
| CoinGeckoDetails.SubstituteTickersSpec | xrateskit/src/main/java/io/horizontalsystems/xrateskit/providers/coingecko/CoinGeckoProvider.kt:272-287 | `SubstituteTickers`: base and target are replaced by the coin symbol exactly when their lower-cased form is a platform address; other fields are copied |
| CoinGeckoDetails.RateDiffPeriodRequested | xrateskit/src/main/java/io/horizontalsystems/xrateskit/providers/coingecko/CoinGeckoProvider.kt:127-157 | `PriceChangePercentage` and `RateDiffPeriod`: the percentage parameter is empty exactly for ALL and HOUR_24; HOUR_24 reads the 24h change, unrequested or unlisted periods give 0 |
| CoinGeckoDetails.CodeDiffsSpec | xrateskit/src/main/java/io/horizontalsystems/xrateskit/providers/coingecko/CoinGeckoProvider.kt:325-327 | `CodeDiffs`: each coin code maps to its lower-cased entry in the period's changes, or 0 |
| CoinGeckoDetails.RateDiffsSpec | xrateskit/src/main/java/io/horizontalsystems/xrateskit/providers/coingecko/CoinGeckoProvider.kt:313-330 | `RateDiffs`: exactly the requested periods are keys, each mapped to the per-code changes of its period (24h for unlisted ones) |
| CoinGeckoCharts.TruncDiv | xrateskit/src/main/java/io/horizontalsystems/xrateskit/providers/coingecko/CoinGeckoProvider.kt:360 | Long division by a positive constant truncates toward zero |
| CoinGeckoCharts.ChartRequestSpec | xrateskit/src/main/java/io/horizontalsystems/xrateskit/providers/coingecko/CoinGeckoProvider.kt:347-354 | `ChartRequestFor`: twice the chart's days are requested, with the daily interval exactly for charts of 90 days or more |
| CoinGeckoCharts.Timestamps | xrateskit/src/main/java/io/horizontalsystems/xrateskit/providers/coingecko/CoinGeckoProvider.kt:360 | one timestamp per price point |
| CoinGeckoCharts.Kept | xrateskit/src/main/java/io/horizontalsystems/xrateskit/providers/coingecko/CoinGeckoProvider.kt:356-363 | only indices of existing points are kept |
| CoinGeckoCharts.KeptStep | xrateskit/src/main/java/io/horizontalsystems/xrateskit/providers/coingecko/CoinGeckoProvider.kt:362-363 | one more price is kept iff all are kept or its timestamp reaches nextTs |
| CoinGeckoCharts.KeptPrefix | xrateskit/src/main/java/io/horizontalsystems/xrateskit/providers/coingecko/CoinGeckoProvider.kt:356-363 | the points kept from a prefix of the response are a prefix of those kept from all of it |
| CoinGeckoCharts.MissingVolumeFails | xrateskit/src/main/java/io/horizontalsystems/xrateskit/providers/coingecko/CoinGeckoProvider.kt:365 | a kept point of a 90-day-or-longer chart without a volume entry makes the conversion fail |
| CoinGeckoCharts.ThinChart | xrateskit/src/main/java/io/horizontalsystems/xrateskit/providers/coingecko/CoinGeckoProvider.kt:355-378 | the loop returns the points of exactly the kept indices, or fails on a missing volume |
| CoinGeckoCharts.KeptAll | xrateskit/src/main/java/io/horizontalsystems/xrateskit/providers/coingecko/CoinGeckoProvider.kt:362 | when the response has at most twice the chart interval points, every point is kept |
| CoinGeckoCharts.KeptIff | xrateskit/src/main/java/io/horizontalsystems/xrateskit/providers/coingecko/CoinGeckoProvider.kt:362-363 | index j is kept iff all are kept or its timestamp reaches the nextTs left by the points kept before it |
| CoinGeckoCharts.KeptSpacing | xrateskit/src/main/java/io/horizontalsystems/xrateskit/providers/coingecko/CoinGeckoProvider.kt:362-363 | the first kept point is at time 0 or later and consecutive kept points are at least seconds-180 apart |
| CoinGeckoCharts.KeptIncreasing | xrateskit/src/main/java/io/horizontalsystems/xrateskit/providers/coingecko/CoinGeckoProvider.kt:359-363 | the kept response indices are strictly increasing: points stay in response order and none is kept twice |
| CoinGeckoCharts.PointsForSpec | xrateskit/src/main/java/io/horizontalsystems/xrateskit/providers/coingecko/CoinGeckoProvider.kt:364-373 | `PointsFor`: conversion succeeds iff the chart is shorter than 90 days or every kept index has a volume; each point carries key, price, volume (0 below 90 days) and the timestamp in seconds |
| CoinGeckoCharts.HistoricalWindowSpec | xrateskit/src/main/java/io/horizontalsystems/xrateskit/providers/coingecko/CoinGeckoProvider.kt:422-424 | `HistoricalWindow`: the queried window is the timestamp ±10 minutes when it is less than a day old, ±2 hours otherwise |
| CoinGeckoCharts.NearestIndex | xrateskit/src/main/java/io/horizontalsystems/xrateskit/providers/coingecko/CoinGeckoProvider.kt:432-436 | the chosen index is a valid index |
| CoinGeckoCharts.NearestIndexSpec | xrateskit/src/main/java/io/horizontalsystems/xrateskit/providers/coingecko/CoinGeckoProvider.kt:432-436 | minByOrNull: the chosen point is nearest to the timestamp and every earlier point is strictly farther |
| CoinGeckoCharts.HistoricalPrice | xrateskit/src/main/java/io/horizontalsystems/xrateskit/providers/coingecko/CoinGeckoProvider.kt:432-436 | fails exactly when there are no prices; otherwise returns the price of a point no other point is nearer than |

## Left out

- Network I/O: the Retrofit service calls, `Single.zip` of the page requests and its catch-all (CoinGeckoProvider.kt:103-111), and logging. Responses enter the model as parameters.
- Concurrency: `ConcurrentHashMap`, `@Synchronized` and the atomicity of `AtomicInteger`. The model runs one operation at a time.
- Reactive-library internals beyond what the hooks observe: schedulers and threads, and the delivery of values to readers. Subject values are recorded as log events.
- `ChartInfoSchedulerFactory`, the schedulers' polling and `ChartInfoManager.update`. Creating, starting and stopping a scheduler, and asking for an update, are log events.
- `MarketInfoSyncManager`. Its feed is an id in `openFeeds`. Its values and errors arrive through `OnFeedValue` and `OnFeedError`.
- ChartInfoRegistry.AddToCounter: the counter is an unbounded integer; the 32-bit wrap-around of `AtomicInteger` is not modelled.
- CoinGeckoPaging.TopMarketsPages: `requestItems` is an unbounded integer. For `itemsCount` within 250 of `Int.MIN_VALUE`, Kotlin's subtraction would wrap to a large positive value and keep looping; that is not modelled.
- Text.LowerChar: lower-cases ASCII letters only. `toLowerCase(Locale.ENGLISH)` also maps non-ASCII letters.
- Text.Lower: lower-cases ASCII letters only, through `Text.LowerChar`.
- Text.IsBlank: counts ASCII whitespace and the separators U+001C..U+001F as blank. The other Unicode space characters that Kotlin's `isBlank` accepts are not modelled.
- `BigDecimal` prices, volumes and percentage changes are integers. Only comparisons with zero and copying matter to the modelled code.
- Timestamps and `Long` arithmetic are unbounded integers. Division truncates toward zero, as `Long` division does.
- CoinGeckoCharts.ThinChart: the value of a missing volume entry is a `VolumeMissing` failure; Kotlin would throw an index exception there.
- CoinGeckoCharts.HistoricalPrice: an empty price list is a `NoPrices` failure; Kotlin's `!!` throws. The clock is the `nowMillis` parameter.
- Coin types are strings. `getProviderCoinId`, `getCoinType` and the provider-coins and coin-info managers are not modelled (lookups into other components).
- The parts of `convertCoinGeckoCoinMarket` other than the rate-diff selection are not modelled, nor are the `market_data` field lookups of the coin details (lines 288-311). They are field-by-field copying into result objects.
- `getCoinMarketsAsync`, `getLatestRates` and the coin description are not modelled. They are request wrappers around the modelled pieces.
- Other providers (CoinMarketCap and the rest) and the kit's factory are outside the modelled core.
