/**
 * The chart-info subscription multiplexer as a state machine over its registries.
 *
 * `Registry` holds the five registries of the manager (subjects, schedulers,
 * observer counters, failed keys, disposables) together with the part of the
 * reactive library's state that the manager's hooks depend on: whether each
 * subject is still open, which downstream observers (readers) are attached to
 * which subject, and which latest-rate feed subscriptions are still open.
 * Objects created by the manager (subjects, schedulers, feed subscriptions,
 * readers) are named by numbers drawn from `nextId`; `log` records the calls
 * the manager makes on those objects. `subjectKeys` remembers the key each
 * subject was created for: an observable handed out for a key always wraps
 * that key's subject.
 *
 * Every operation is a function from the old registry to the new one; the
 * class in ChartInfoSync executes the same steps in place.
 */
module ChartInfoRegistry {
  import opened Wrappers
  import opened Entities

  datatype SubjectState = Open | Completed | Errored

  /** A downstream observer that subscribed through the observable of `key`
      and is attached to the subject `subject`. */
  datatype Reader = Reader(id: nat, key: ChartInfoKey, subject: nat)

  /** What `chartInfoObservable` hands out: an immediate error, or the subject
      of the key wrapped with the subscribe/dispose/error hooks. */
  datatype Observable = ErrorObservable | SubjectObservable(key: ChartInfoKey, subject: nat)

  /** What a subscriber sees right after subscribing. */
  datatype Subscription = Attached(reader: nat) | ErrorReceived | CompleteReceived

  /** Calls the manager makes on the objects it owns or observes. */
  datatype Event =
    | SchedulerCreated(key: ChartInfoKey, scheduler: nat)
    | SchedulerStarted(scheduler: nat)
    | SchedulerStopped(scheduler: nat)
    | FeedOpened(marketKey: MarketInfoKey, feed: nat)
    | FeedDisposed(feed: nat)
    | ChartUpdateRequested(key: ChartInfoKey)
    | SubjectNext(subject: nat, info: ChartInfo)
    | SubjectError(subject: nat)
    | SubjectComplete(subject: nat)

  datatype Registry = Registry(
    subjects: map<ChartInfoKey, nat>,
    schedulers: map<ChartInfoKey, nat>,
    observers: map<ChartInfoKey, int>,
    failedKeys: seq<ChartInfoKey>,
    disposables: map<ChartInfoKey, nat>,
    subjectStates: map<nat, SubjectState>,
    subjectKeys: map<nat, ChartInfoKey>,
    readers: seq<Reader>,
    openFeeds: map<nat, ChartInfoKey>,
    nextId: nat,
    log: seq<Event>)

  const Initial: Registry :=
    Registry(map[], map[], map[], [], map[], map[], map[], [], map[], 0, [])

  // ---------------------------------------------------------------------------
  // Well-formedness and per-key comparison

  ghost predicate IdsIncreasing(rs: seq<Reader>) {
    forall i, j :: 0 <= i < j < |rs| ==> rs[i].id < rs[j].id
  }

  /** Subject `s` exists and was created for `key`. */
  ghost predicate SubjectOf(r: Registry, s: nat, key: ChartInfoKey) {
    s in r.subjectStates && s in r.subjectKeys && r.subjectKeys[s] == key
  }

  /** Every subject of `r` still exists in `r'` and still belongs to the same
      key, so an observable handed out in `r` can still be subscribed to. */
  ghost predicate SubjectsKept(r: Registry, r': Registry) {
    forall s, key :: SubjectOf(r, s, key) ==> SubjectOf(r', s, key)
  }

  /** Every subject, feed and reader name in use was drawn from the
      allocator, every registered or observed subject has a state and belongs
      to the key it is registered or observed under, and readers are kept in
      attach order. */
  ghost predicate Wf(r: Registry) {
    && (forall k :: k in r.subjects ==> SubjectOf(r, r.subjects[k], k))
    && (forall s :: s in r.subjectStates ==> s < r.nextId)
    && (forall d :: d in r.openFeeds ==> d < r.nextId)
    && (forall i :: 0 <= i < |r.readers| ==> r.readers[i].id < r.nextId)
    && (forall i :: 0 <= i < |r.readers| ==> SubjectOf(r, r.readers[i].subject, r.readers[i].key))
    && IdsIncreasing(r.readers)
  }

  ghost predicate Agree<K, V>(m: map<K, V>, m': map<K, V>, k: K) {
    (k in m <==> k in m') && (k in m ==> m[k] == m'[k])
  }

  /** The five registries hold the same entries for `k` in `r` and `r'`. */
  ghost predicate SameKey(r: Registry, r': Registry, k: ChartInfoKey) {
    && Agree(r.subjects, r'.subjects, k)
    && Agree(r.schedulers, r'.schedulers, k)
    && Agree(r.observers, r'.observers, k)
    && Agree(r.disposables, r'.disposables, k)
    && (k in r.failedKeys <==> k in r'.failedKeys)
  }

  ghost predicate OtherKeysUntouched(r: Registry, r': Registry, key: ChartInfoKey) {
    forall k :: k != key ==> SameKey(r, r', k)
  }

  lemma UntouchedTransitive(r1: Registry, r2: Registry, r3: Registry, key: ChartInfoKey)
    requires OtherKeysUntouched(r1, r2, key) && OtherKeysUntouched(r2, r3, key)
    ensures OtherKeysUntouched(r1, r3, key)
  {
    forall k | k != key ensures SameKey(r1, r3, k) {
      assert SameKey(r1, r2, k) && SameKey(r2, r3, k);
    }
  }

  /** Feed subscriptions opened for `key` that have not been disposed. */
  ghost function OpenFeedsOf(r: Registry, key: ChartInfoKey): set<nat> {
    set d | d in r.openFeeds && r.openFeeds[d] == key
  }

  // ---------------------------------------------------------------------------
  // Attached readers

  function FindReader(rs: seq<Reader>, id: nat): (res: Option<Reader>)
    ensures res.Some? ==> res.value in rs && res.value.id == id
    ensures res.None? ==> forall i :: 0 <= i < |rs| ==> rs[i].id != id
  {
    if rs == [] then None
    else if rs[0].id == id then Some(rs[0])
    else FindReader(rs[1..], id)
  }

  /** The readers other than `id`, in attach order. */
  function RemoveReader(rs: seq<Reader>, id: nat): (res: seq<Reader>)
    ensures forall x :: x in res <==> x in rs && x.id != id
    ensures IdsIncreasing(rs) ==> IdsIncreasing(res)
  {
    if rs == [] then []
    else if rs[0].id == id then RemoveReader(rs[1..], id)
    else [rs[0]] + RemoveReader(rs[1..], id)
  }

  /** The readers attached to subject `s`, in attach order (the subject's
      observer list). */
  function ReadersOf(rs: seq<Reader>, s: nat): (res: seq<Reader>)
    ensures forall x :: x in res <==> x in rs && x.subject == s
    ensures IdsIncreasing(rs) ==> IdsIncreasing(res)
  {
    if rs == [] then []
    else if rs[0].subject == s then [rs[0]] + ReadersOf(rs[1..], s)
    else ReadersOf(rs[1..], s)
  }

  /** The readers not attached to subject `s`, in attach order. */
  function WithoutSubject(rs: seq<Reader>, s: nat): (res: seq<Reader>)
    ensures forall x :: x in res <==> x in rs && x.subject != s
    ensures IdsIncreasing(rs) ==> IdsIncreasing(res)
  {
    if rs == [] then []
    else if rs[0].subject == s then WithoutSubject(rs[1..], s)
    else [rs[0]] + WithoutSubject(rs[1..], s)
  }

  predicate HasObservers(r: Registry, s: nat) {
    ReadersOf(r.readers, s) != []
  }

  // ---------------------------------------------------------------------------
  // The manager's operations

  function Counter(r: Registry, key: ChartInfoKey): int {
    if key in r.observers then r.observers[key] else 0
  }

  /** getCounter: get-or-create the counter of `key`. */
  function GetCounter(r: Registry, key: ChartInfoKey): (res: (Registry, int))
    ensures key in res.0.observers && res.0.observers[key] == res.1
    ensures key in r.observers ==> res.0 == r
    ensures key !in r.observers ==> res.1 == 0 && res.0 == r.(observers := res.0.observers)
    ensures OtherKeysUntouched(r, res.0, key)
  {
    if key in r.observers then (r, r.observers[key])
    else (r.(observers := r.observers[key := 0]), 0)
  }

  /** `getCounter(key).incrementAndGet()` (delta 1) and `decrementAndGet()` (delta -1). */
  function AddToCounter(r: Registry, key: ChartInfoKey, delta: int): (res: Registry)
    ensures key in res.observers && res.observers[key] == Counter(r, key) + delta
    ensures res == r.(observers := res.observers)
    ensures OtherKeysUntouched(r, res, key)
  {
    var (r1, c) := GetCounter(r, key);
    r1.(observers := r1.observers[key := c + delta])
  }

  /** getSubject: get-or-create the subject of `key`. */
  function GetSubject(r: Registry, key: ChartInfoKey): (res: (Registry, nat))
    ensures key in res.0.subjects && res.0.subjects[key] == res.1
    ensures key in r.subjects ==> res.0 == r
    ensures key !in r.subjects ==>
      && res.1 == r.nextId && res.0.nextId == r.nextId + 1
      && res.0.subjectStates == r.subjectStates[res.1 := Open]
      && res.0.subjects == r.subjects[key := res.1]
      && res.0.subjectKeys == r.subjectKeys[res.1 := key]
    ensures res.0 == r.(subjects := res.0.subjects, subjectStates := res.0.subjectStates,
                        subjectKeys := res.0.subjectKeys, nextId := res.0.nextId)
    ensures OtherKeysUntouched(r, res.0, key)
  {
    if key in r.subjects then (r, r.subjects[key])
    else
      var s := r.nextId;
      (r.(subjects := r.subjects[key := s], subjectStates := r.subjectStates[s := Open],
          subjectKeys := r.subjectKeys[s := key], nextId := s + 1), s)
  }

  /** observeLatestRates: open a latest-rate feed subscription for the coin and
      currency of `key` and store it as the key's disposable, replacing (without
      disposing) any earlier one. */
  function ObserveLatestRates(r: Registry, key: ChartInfoKey): (res: Registry)
    ensures key in res.disposables && res.disposables[key] == r.nextId
    ensures res.openFeeds == r.openFeeds[r.nextId := key]
    ensures res.log == r.log + [FeedOpened(MarketInfoKey(key.coin, key.currency), r.nextId)]
    ensures res == r.(disposables := res.disposables, openFeeds := res.openFeeds, nextId := r.nextId + 1, log := res.log)
    ensures OtherKeysUntouched(r, res, key)
  {
    var d := r.nextId;
    r.(disposables := r.disposables[key := d],
       openFeeds := r.openFeeds[d := key],
       nextId := d + 1,
       log := r.log + [FeedOpened(MarketInfoKey(key.coin, key.currency), d)])
  }

  /** getSubject asked twice hands out the same subject, and the second call
      changes nothing. */
  lemma GetSubjectRepeat(r: Registry, key: ChartInfoKey)
    ensures var (r1, s1) := GetSubject(r, key);
      GetSubject(r1, key) == (r1, s1)
  {
  }

  /** getScheduler: get-or-create the scheduler of `key` (the factory is asked
      only when none is registered), then open a latest-rate feed. */
  function GetScheduler(r: Registry, key: ChartInfoKey): (res: (Registry, nat))
    ensures key in res.0.schedulers && res.0.schedulers[key] == res.1
    ensures key in r.schedulers ==>
      && res.1 == r.schedulers[key]
      && res.0.schedulers == r.schedulers
      && res.0.log == r.log + [FeedOpened(MarketInfoKey(key.coin, key.currency), r.nextId)]
    ensures key !in r.schedulers ==>
      && res.1 == r.nextId
      && res.0.schedulers == r.schedulers[key := res.1]
      && res.0.log == r.log + [SchedulerCreated(key, res.1), FeedOpened(MarketInfoKey(key.coin, key.currency), r.nextId + 1)]
    ensures key in res.0.disposables && res.0.disposables[key] in res.0.openFeeds
    ensures res.0.openFeeds == r.openFeeds[res.0.disposables[key] := key]
    ensures res.0.nextId == res.0.disposables[key] + 1 && res.0.disposables[key] >= r.nextId
    ensures res.0 == r.(schedulers := res.0.schedulers, disposables := res.0.disposables,
                        openFeeds := res.0.openFeeds, nextId := res.0.nextId, log := res.0.log)
    ensures OtherKeysUntouched(r, res.0, key)
  {
    var (r1, sch) :=
      if key in r.schedulers then (r, r.schedulers[key])
      else
        var id := r.nextId;
        (r.(schedulers := r.schedulers[key := id], nextId := id + 1, log := r.log + [SchedulerCreated(key, id)]), id);
    UntouchedTransitive(r, r1, ObserveLatestRates(r1, key), key);
    (ObserveLatestRates(r1, key), sch)
  }

  /** First step of cleanup: complete the subject of `key` (its readers receive
      onComplete and detach) and unregister it. */
  function CompleteSubject(r: Registry, key: ChartInfoKey): (res: Registry)
    requires key in r.subjects
    ensures key !in res.subjects
    ensures res.readers == WithoutSubject(r.readers, r.subjects[key])
    ensures res.log == r.log + [SubjectComplete(r.subjects[key])]
    ensures res.subjectStates.Keys == r.subjectStates.Keys
    ensures forall x :: x in r.subjectStates && r.subjectStates[x] != Open ==> res.subjectStates[x] == r.subjectStates[x]
    ensures r.subjects[key] in r.subjectStates ==> res.subjectStates[r.subjects[key]] != Open
    ensures res == r.(subjects := r.subjects - {key}, subjectStates := res.subjectStates,
                      readers := res.readers, log := res.log)
  {
    var s := r.subjects[key];
    r.(subjects := r.subjects - {key},
       subjectStates := if s in r.subjectStates && r.subjectStates[s] == Open
                        then r.subjectStates[s := Completed] else r.subjectStates,
       readers := WithoutSubject(r.readers, s),
       log := r.log + [SubjectComplete(s)])
  }

  /** `schedulers[key]?.stop()` followed by `schedulers.remove(key)`. */
  function StopScheduler(r: Registry, key: ChartInfoKey): (res: Registry)
    ensures key !in res.schedulers
    ensures res.log == r.log + (if key in r.schedulers then [SchedulerStopped(r.schedulers[key])] else [])
    ensures res == r.(schedulers := r.schedulers - {key}, log := res.log)
  {
    if key in r.schedulers
    then r.(schedulers := r.schedulers - {key}, log := r.log + [SchedulerStopped(r.schedulers[key])])
    else r.(schedulers := r.schedulers - {key})
  }

  /** `disposables[key]?.dispose()`: the entry itself stays in the map. */
  function DisposeFeed(r: Registry, key: ChartInfoKey): (res: Registry)
    ensures res.openFeeds == (if key in r.disposables then r.openFeeds - {r.disposables[key]} else r.openFeeds)
    ensures res.log == r.log + (if key in r.disposables then [FeedDisposed(r.disposables[key])] else [])
    ensures res == r.(openFeeds := res.openFeeds, log := res.log)
  {
    if key in r.disposables
    then r.(openFeeds := r.openFeeds - {r.disposables[key]}, log := r.log + [FeedDisposed(r.disposables[key])])
    else r
  }

  /** cleanup: when `key` has a subject and its counter is not positive,
      complete and unregister the subject, stop and unregister the scheduler
      and dispose the key's disposable. The counter and disposable entries
      stay in their maps. */
  function Cleanup(r: Registry, key: ChartInfoKey): (res: Registry)
    ensures key !in r.subjects ==> res == r
    ensures key in r.subjects && Counter(r, key) > 0 ==> res == r
    ensures res.nextId == r.nextId && res.failedKeys == r.failedKeys && res.disposables == r.disposables
    ensures res.subjectStates.Keys == r.subjectStates.Keys && res.subjectKeys == r.subjectKeys
  {
    if key !in r.subjects then r
    else
      var (r0, c) := GetCounter(r, key);
      if c > 0 then r0
      else DisposeFeed(StopScheduler(CompleteSubject(r0, key), key), key)
  }

  /** What cleanup does when it fires. */
  lemma CleanupFires(r: Registry, key: ChartInfoKey)
    requires key in r.subjects && Counter(r, key) <= 0
    ensures var res := Cleanup(r, key);
      && key !in res.subjects
      && key !in res.schedulers
      && key in res.observers && res.observers[key] == Counter(r, key)
      && res.openFeeds == (if key in r.disposables then r.openFeeds - {r.disposables[key]} else r.openFeeds)
      && res.readers == WithoutSubject(r.readers, r.subjects[key])
      && res.log == r.log + [SubjectComplete(r.subjects[key])]
                          + (if key in r.schedulers then [SchedulerStopped(r.schedulers[key])] else [])
                          + (if key in r.disposables then [FeedDisposed(r.disposables[key])] else [])
      && (r.subjects[key] in r.subjectStates ==> res.subjectStates[r.subjects[key]] != Open)
  {
  }

  /** getScheduler asked twice hands out the same scheduler; the factory is
      not asked again, but the second call opens another latest-rate feed and
      makes it the key's disposable. */
  lemma GetSchedulerRepeat(r: Registry, key: ChartInfoKey)
    ensures var (r1, sch1) := GetScheduler(r, key);
      var (r2, sch2) := GetScheduler(r1, key);
      && sch2 == sch1
      && r2.schedulers == r1.schedulers
      && r2.log == r1.log + [FeedOpened(MarketInfoKey(key.coin, key.currency), r1.nextId)]
      && r2.disposables[key] == r1.nextId && r2.disposables[key] != r1.disposables[key]
  {
  }

  /** Cleanup only ever terminates subjects, never reopens one. */
  lemma CleanupKeepsTerminated(r: Registry, key: ChartInfoKey)
    ensures forall x :: x in r.subjectStates && r.subjectStates[x] != Open ==>
      Cleanup(r, key).subjectStates[x] == r.subjectStates[x]
  {
  }

  /** Cleanup touches no other key. */
  lemma CleanupOtherKeys(r: Registry, key: ChartInfoKey)
    ensures OtherKeysUntouched(r, Cleanup(r, key), key)
  {
    if key in r.subjects {
      var r0 := GetCounter(r, key).0;
      assert OtherKeysUntouched(r, r0, key) by {
        forall k | k != key ensures SameKey(r, r0, k) { }
      }
      if Counter(r, key) <= 0 {
        var r1 := CompleteSubject(r0, key);
        var r2 := StopScheduler(r1, key);
        var r3 := DisposeFeed(r2, key);
        assert Cleanup(r, key) == r3;
        assert OtherKeysUntouched(r0, r1, key) by {
          forall k | k != key ensures SameKey(r0, r1, k) { }
        }
        assert OtherKeysUntouched(r1, r2, key) by {
          forall k | k != key ensures SameKey(r1, r2, k) { }
        }
        assert OtherKeysUntouched(r2, r3, key) by {
          forall k | k != key ensures SameKey(r2, r3, k) { }
        }
        UntouchedTransitive(r0, r1, r2, key);
        UntouchedTransitive(r0, r2, r3, key);
        UntouchedTransitive(r, r0, r3, key);
      }
    }
  }

  /** A second cleanup of the same key changes nothing: the first one either
      did nothing or unregistered the subject. */
  lemma CleanupTwice(r: Registry, key: ChartInfoKey)
    ensures Cleanup(Cleanup(r, key), key) == Cleanup(r, key)
  {
    if key in r.subjects && Counter(r, key) <= 0 {
      CleanupFires(r, key);
    }
  }

  /** The body shared by the dispose and error hooks: decrement, then cleanup. */
  function Detach(r: Registry, key: ChartInfoKey): (res: Registry)
    ensures key in r.subjects && Counter(r, key) > 1 ==>
      res == r.(observers := r.observers[key := Counter(r, key) - 1])
    ensures key in r.subjects && Counter(r, key) <= 1 ==>
      key !in res.subjects && key !in res.schedulers && Counter(res, key) == Counter(r, key) - 1
    ensures key !in r.subjects ==> res == r.(observers := r.observers[key := Counter(r, key) - 1])
    ensures res.nextId == r.nextId && res.failedKeys == r.failedKeys
    ensures res.subjectStates.Keys == r.subjectStates.Keys && res.subjectKeys == r.subjectKeys
    ensures OtherKeysUntouched(r, res, key)
  {
    var r1 := AddToCounter(r, key, -1);
    CleanupOtherKeys(r1, key);
    UntouchedTransitive(r, r1, Cleanup(r1, key), key);
    if key in r1.subjects && Counter(r1, key) <= 0 then CleanupFires(r1, key); Cleanup(r1, key)
    else Cleanup(r1, key)
  }

  /** chartInfoObservable: fail fast on a failed key, otherwise hand out the
      key's subject (creating it if needed). */
  function ChartInfoObservable(r: Registry, key: ChartInfoKey): (res: (Registry, Observable))
    ensures key in r.failedKeys ==> res == (r, ErrorObservable)
    ensures key !in r.failedKeys ==>
      && res.0 == GetSubject(r, key).0
      && key in res.0.subjects
      && res.1 == SubjectObservable(key, res.0.subjects[key])
    ensures OtherKeysUntouched(r, res.0, key)
    ensures Wf(r) ==> SubjectsKept(r, res.0)
  {
    if key in r.failedKeys then (r, ErrorObservable)
    else
      assert Wf(r) ==> r.nextId !in r.subjectStates;
      var (r1, s) := GetSubject(r, key);
      (r1, SubjectObservable(key, s))
  }

  /** The subscribe hook: `getCounter(key).incrementAndGet()` then
      `getScheduler(key).start()`, on every subscription. */
  function SubscribeHook(r: Registry, key: ChartInfoKey): (res: (Registry, nat))
    ensures Counter(res.0, key) == Counter(r, key) + 1
    ensures key in res.0.schedulers && res.0.schedulers[key] == res.1
    ensures key in res.0.disposables && res.0.disposables[key] in res.0.openFeeds
    ensures key in r.schedulers ==>
      && res.1 == r.schedulers[key]
      && res.0.log == r.log + [FeedOpened(MarketInfoKey(key.coin, key.currency), res.0.disposables[key]), SchedulerStarted(res.1)]
    ensures key !in r.schedulers ==>
      && res.1 == r.nextId
      && res.0.log == r.log + [SchedulerCreated(key, res.1), FeedOpened(MarketInfoKey(key.coin, key.currency), res.0.disposables[key]), SchedulerStarted(res.1)]
    ensures res.0.openFeeds == r.openFeeds[res.0.disposables[key] := key]
    ensures res.0.nextId == res.0.disposables[key] + 1 && res.0.disposables[key] >= r.nextId
    ensures res.0.subjects == r.subjects && res.0.subjectStates == r.subjectStates
    ensures res.0.failedKeys == r.failedKeys && res.0.readers == r.readers
    ensures OtherKeysUntouched(r, res.0, key)
  {
    var r1 := AddToCounter(r, key, 1);
    var (r2, sch) := GetScheduler(r1, key);
    UntouchedTransitive(r, r1, r2, key);
    (r2.(log := r2.log + [SchedulerStarted(sch)]), sch)
  }

  /** Subscribing to an observable. For the immediate error nothing runs. For a
      subject observable the subscribe hook runs first; then the subscriber
      attaches to an open subject, receives onComplete from a completed one
      (no further hook runs, so the counter stays raised), or receives onError from an errored one, which runs the
      error hook. */
  function Subscribe(r: Registry, obs: Observable): (res: (Registry, Subscription))
    requires obs.SubjectObservable? ==> SubjectOf(r, obs.subject, obs.key)
    ensures obs.ErrorObservable? ==> res == (r, ErrorReceived)
    ensures obs.SubjectObservable? ==>
      var r1 := SubscribeHook(r, obs.key).0;
      && (res.1.Attached? <==> r.subjectStates[obs.subject] == Open)
      && (res.1.Attached? ==>
            && res.1.reader == r1.nextId
            && res.0 == r1.(readers := r1.readers + [Reader(res.1.reader, obs.key, obs.subject)], nextId := r1.nextId + 1))
      && (res.1.CompleteReceived? <==> r.subjectStates[obs.subject] == Completed)
      && (res.1.CompleteReceived? ==> res.0 == r1)
      && (res.1.ErrorReceived? ==> res.0 == Detach(r1, obs.key))
    ensures res.0.failedKeys == r.failedKeys
    ensures SubjectsKept(r, res.0)
  {
    if obs.ErrorObservable? then (r, ErrorReceived)
    else
      var r1 := SubscribeHook(r, obs.key).0;
      var state := r1.subjectStates[obs.subject];
      if state == Open then
        (r1.(readers := r1.readers + [Reader(r1.nextId, obs.key, obs.subject)], nextId := r1.nextId + 1), Attached(r1.nextId))
      else if state == Completed then (r1, CompleteReceived)
      else (Detach(r1, obs.key), ErrorReceived)
  }

  /** Disposing a subscription: the dispose hook runs only while the reader is
      still attached; disposing a finished subscription does nothing. */
  function Dispose(r: Registry, id: nat): (res: Registry)
    ensures FindReader(r.readers, id).None? ==> res == r
    ensures FindReader(r.readers, id).Some? ==>
      res == Detach(r.(readers := RemoveReader(r.readers, id)), FindReader(r.readers, id).value.key)
    ensures res.nextId == r.nextId && res.failedKeys == r.failedKeys
    ensures SubjectsKept(r, res)
  {
    match FindReader(r.readers, id)
    case None => r
    case Some(rd) => Detach(r.(readers := RemoveReader(r.readers, id)), rd.key)
  }

  /** The error hooks of the given readers, one after the other. */
  function DetachAll(r: Registry, rs: seq<Reader>): (res: Registry)
    decreases |rs|
    ensures res.nextId == r.nextId && res.failedKeys == r.failedKeys
    ensures res.subjectStates.Keys == r.subjectStates.Keys && res.subjectKeys == r.subjectKeys
  {
    if rs == [] then r else DetachAll(Detach(r, rs[0].key), rs[1..])
  }

  /** onUpdate: forward the update to the key's subject, if one is registered. */
  function OnUpdate(r: Registry, info: ChartInfo, key: ChartInfoKey): (res: Registry)
    ensures key in r.subjects ==> res == r.(log := r.log + [SubjectNext(r.subjects[key], info)])
    ensures key !in r.subjects ==> res == r
  {
    if key in r.subjects then r.(log := r.log + [SubjectNext(r.subjects[key], info)]) else r
  }

  /** noChartInfo: blacklist the key; if its subject has observers, send them
      the error, each of which runs its error hook. */
  function NoChartInfo(r: Registry, key: ChartInfoKey): (res: Registry)
    ensures key in res.failedKeys && res.failedKeys == r.failedKeys + [key]
    ensures SubjectsKept(r, res)
    ensures !(key in r.subjects && HasObservers(r, r.subjects[key])) ==>
      res == r.(failedKeys := r.failedKeys + [key])
    ensures key in r.subjects && HasObservers(r, r.subjects[key]) ==>
      var s := r.subjects[key];
      res == DetachAll(r.(failedKeys := r.failedKeys + [key],
                          subjectStates := r.subjectStates[s := Errored],
                          readers := WithoutSubject(r.readers, s),
                          log := r.log + [SubjectError(s)]),
                       ReadersOf(r.readers, s))
  {
    var r1 := r.(failedKeys := r.failedKeys + [key]);
    if key in r1.subjects && HasObservers(r1, r1.subjects[key]) then
      var s := r1.subjects[key];
      var r2 := r1.(subjectStates := r1.subjectStates[s := Errored],
                    readers := WithoutSubject(r1.readers, s),
                    log := r1.log + [SubjectError(s)]);
      DetachAll(r2, ReadersOf(r1.readers, s))
    else r1
  }

  /** A value on an open latest-rate feed asks the chart manager to update the
      feed's key; values on disposed feeds never arrive. */
  function OnFeedValue(r: Registry, feed: nat): (res: Registry)
    ensures feed in r.openFeeds ==> res == r.(log := r.log + [ChartUpdateRequested(r.openFeeds[feed])])
    ensures feed !in r.openFeeds ==> res == r
  {
    if feed in r.openFeeds then r.(log := r.log + [ChartUpdateRequested(r.openFeeds[feed])]) else r
  }

  /** An error on a latest-rate feed ends that feed subscription and is
      otherwise swallowed: no registry changes and nothing is logged. */
  function OnFeedError(r: Registry, feed: nat): (res: Registry)
    ensures feed !in res.openFeeds
    ensures res == r.(openFeeds := r.openFeeds - {feed})
    ensures forall k :: SameKey(r, res, k)
  {
    r.(openFeeds := r.openFeeds - {feed})
  }

  // ---------------------------------------------------------------------------
  // Every operation keeps the registry well formed

  /** Appending a reader with a fresh id keeps the readers in attach order. */
  lemma AppendFresh(rs: seq<Reader>, x: Reader)
    requires IdsIncreasing(rs) && forall i :: 0 <= i < |rs| ==> rs[i].id < x.id
    ensures IdsIncreasing(rs + [x])
  {
    var rs' := rs + [x];
    forall i, j | 0 <= i < j < |rs'| ensures rs'[i].id < rs'[j].id {
      if j == |rs| {
        assert rs'[i] == rs[i];
      } else {
        assert rs'[i] == rs[i] && rs'[j] == rs[j];
      }
    }
  }

  lemma CompleteSubjectWf(r: Registry, key: ChartInfoKey)
    requires Wf(r) && key in r.subjects
    ensures Wf(CompleteSubject(r, key))
  {
    var r1 := CompleteSubject(r, key);
    forall k | k in r1.subjects ensures SubjectOf(r1, r1.subjects[k], k) {
      assert SubjectOf(r, r.subjects[k], k);
    }
    forall i | 0 <= i < |r1.readers|
      ensures r1.readers[i].id < r1.nextId && SubjectOf(r1, r1.readers[i].subject, r1.readers[i].key)
    {
      assert r1.readers[i] in r.readers;
      var j :| 0 <= j < |r.readers| && r.readers[j] == r1.readers[i];
      assert SubjectOf(r, r.readers[j].subject, r.readers[j].key);
    }
  }

  /** Wf depends only on the subjects, the readers, the allocator and which
      feeds are open. */
  lemma WfKeep(r: Registry, r': Registry)
    requires Wf(r)
    requires r'.subjects == r.subjects && r'.subjectStates == r.subjectStates && r'.subjectKeys == r.subjectKeys
    requires r'.readers == r.readers && r'.nextId == r.nextId && r'.openFeeds.Keys <= r.openFeeds.Keys
    ensures Wf(r')
  {
  }

  lemma CleanupWf(r: Registry, key: ChartInfoKey)
    requires Wf(r)
    ensures Wf(Cleanup(r, key))
  {
    if key in r.subjects && Counter(r, key) <= 0 {
      var r0 := GetCounter(r, key).0;
      WfKeep(r, r0);
      var r1 := CompleteSubject(r0, key);
      CompleteSubjectWf(r0, key);
      var r2 := StopScheduler(r1, key);
      WfKeep(r1, r2);
      WfKeep(r2, DisposeFeed(r2, key));
    }
  }

  lemma DetachWf(r: Registry, key: ChartInfoKey)
    requires Wf(r)
    ensures Wf(Detach(r, key))
  {
    CleanupWf(AddToCounter(r, key, -1), key);
  }

  lemma ChartInfoObservableWf(r: Registry, key: ChartInfoKey)
    requires Wf(r)
    ensures var res := ChartInfoObservable(r, key);
      Wf(res.0) && (res.1.SubjectObservable? ==> SubjectOf(res.0, res.1.subject, key))
  {
  }

  lemma SubscribeHookWf(r: Registry, key: ChartInfoKey)
    requires Wf(r)
    ensures var res := SubscribeHook(r, key).0;
      && Wf(res)
      && res.disposables[key] !in r.openFeeds
      && OpenFeedsOf(res, key) == OpenFeedsOf(r, key) + {res.disposables[key]}
  {
    var r1 := AddToCounter(r, key, 1);
    assert OpenFeedsOf(r1, key) == OpenFeedsOf(r, key);
  }

  lemma SubscribeWf(r: Registry, obs: Observable)
    requires Wf(r) && (obs.SubjectObservable? ==> SubjectOf(r, obs.subject, obs.key))
    ensures Wf(Subscribe(r, obs).0)
  {
    if obs.SubjectObservable? {
      SubscribeHookWf(r, obs.key);
      var r1 := SubscribeHook(r, obs.key).0;
      var res := Subscribe(r, obs);
      if res.1.Attached? {
        AppendFresh(r1.readers, Reader(r1.nextId, obs.key, obs.subject));
      } else if res.1.ErrorReceived? {
        DetachWf(r1, obs.key);
      }
    }
  }

  lemma SubscribeOtherKeys(r: Registry, key: ChartInfoKey, s: nat)
    requires SubjectOf(r, s, key)
    ensures OtherKeysUntouched(r, Subscribe(r, SubjectObservable(key, s)).0, key)
  {
    var r1 := SubscribeHook(r, key).0;
    var res := Subscribe(r, SubjectObservable(key, s)).0;
    if r.subjectStates[s] == Errored {
      UntouchedTransitive(r, r1, res, key);
    } else {
      forall k | k != key ensures SameKey(r, res, k) {
        assert SameKey(r, r1, k);
      }
    }
  }

  lemma DisposeWf(r: Registry, id: nat)
    requires Wf(r)
    ensures Wf(Dispose(r, id))
  {
    var found := FindReader(r.readers, id);
    if found.Some? {
      var r1 := r.(readers := RemoveReader(r.readers, id));
      assert Wf(r1) by {
        forall i | 0 <= i < |r1.readers|
          ensures r1.readers[i].id < r1.nextId && SubjectOf(r1, r1.readers[i].subject, r1.readers[i].key)
        {
          assert r1.readers[i] in r.readers;
        }
      }
      DetachWf(r1, found.value.key);
    }
  }

  lemma {:induction false} DetachAllWf(r: Registry, rs: seq<Reader>)
    requires Wf(r)
    ensures Wf(DetachAll(r, rs))
    decreases |rs|
  {
    if rs != [] {
      DetachWf(r, rs[0].key);
      DetachAllWf(Detach(r, rs[0].key), rs[1..]);
    }
  }

  lemma NoChartInfoWf(r: Registry, key: ChartInfoKey)
    requires Wf(r)
    ensures Wf(NoChartInfo(r, key))
  {
    if key in r.subjects && HasObservers(r, r.subjects[key]) {
      var s := r.subjects[key];
      var r2 := r.(failedKeys := r.failedKeys + [key],
                   subjectStates := r.subjectStates[s := Errored],
                   readers := WithoutSubject(r.readers, s),
                   log := r.log + [SubjectError(s)]);
      assert Wf(r2) by {
        forall i | 0 <= i < |r2.readers|
          ensures r2.readers[i].id < r2.nextId && SubjectOf(r2, r2.readers[i].subject, r2.readers[i].key)
        {
          assert r2.readers[i] in r.readers;
        }
      }
      DetachAllWf(r2, ReadersOf(r.readers, s));
    }
  }
  // ---------------------------------------------------------------------------
  // The failure report on one key touches no other key

  /** Error hooks of readers of `key` touch no other key. */
  lemma {:induction false} DetachAllOtherKeys(r: Registry, rs: seq<Reader>, key: ChartInfoKey)
    requires forall i :: 0 <= i < |rs| ==> rs[i].key == key
    ensures OtherKeysUntouched(r, DetachAll(r, rs), key)
    decreases |rs|
  {
    if rs != [] {
      var r1 := Detach(r, key);
      DetachAllOtherKeys(r1, rs[1..], key);
      UntouchedTransitive(r, r1, DetachAll(r1, rs[1..]), key);
    }
  }

  /** noChartInfo on one key leaves every other key's registry entries as
      they were: the readers its error reaches all subscribed through the
      failing key's observable. */
  lemma NoChartInfoOtherKeys(r: Registry, key: ChartInfoKey)
    requires Wf(r)
    ensures OtherKeysUntouched(r, NoChartInfo(r, key), key)
  {
    if key in r.subjects && HasObservers(r, r.subjects[key]) {
      var s := r.subjects[key];
      var r2 := r.(failedKeys := r.failedKeys + [key],
                   subjectStates := r.subjectStates[s := Errored],
                   readers := WithoutSubject(r.readers, s),
                   log := r.log + [SubjectError(s)]);
      var rs := ReadersOf(r.readers, s);
      forall i | 0 <= i < |rs| ensures rs[i].key == key {
        assert rs[i] in r.readers && rs[i].subject == s;
        var j :| 0 <= j < |r.readers| && r.readers[j] == rs[i];
        assert SubjectOf(r, r.readers[j].subject, r.readers[j].key);
        assert SubjectOf(r, s, key);
      }
      DetachAllOtherKeys(r2, rs, key);
      UntouchedTransitive(r, r2, NoChartInfo(r, key), key);
    }
  }
}
