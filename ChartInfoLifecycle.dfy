/**
 * The life of one chart-info key: a first subscription creates the subject and
 * the scheduler, further subscriptions share them, and the last dispose tears
 * them down again; a "no chart info" report fails every subscriber at once.
 */
module ChartInfoLifecycle {
  import opened Wrappers
  import opened Entities
  import opened ChartInfoRegistry

  // ---------------------------------------------------------------------------
  // Reader lists

  /** The readers a subject with subscribers `ids` holds, in attach order. */
  ghost function ReadersFor(ids: seq<nat>, key: ChartInfoKey, s: nat): seq<Reader> {
    seq(|ids|, i requires 0 <= i < |ids| => Reader(ids[i], key, s))
  }

  lemma ReadersForAppend(ids: seq<nat>, id: nat, key: ChartInfoKey, s: nat)
    ensures ReadersFor(ids, key, s) + [Reader(id, key, s)] == ReadersFor(ids + [id], key, s)
  {
  }

  lemma {:induction false} FindUnique(rs: seq<Reader>, x: Reader)
    requires IdsIncreasing(rs) && x in rs
    ensures FindReader(rs, x.id) == Some(x)
  {
    if rs[0] != x {
      assert x in rs[1..];
      var j :| 1 <= j < |rs| && rs[j] == x;
      assert rs[0].id < rs[j].id;
      FindUnique(rs[1..], x);
    }
  }

  lemma {:induction false} ReadersOfAppend(rs: seq<Reader>, x: Reader, s: nat)
    ensures ReadersOf(rs + [x], s) == ReadersOf(rs, s) + (if x.subject == s then [x] else [])
  {
    if rs == [] {
      assert rs + [x] == [x];
    } else {
      assert (rs + [x])[1..] == rs[1..] + [x];
      ReadersOfAppend(rs[1..], x, s);
    }
  }

  lemma {:induction false} ReadersOfRemove(rs: seq<Reader>, id: nat, s: nat)
    ensures ReadersOf(RemoveReader(rs, id), s) == RemoveReader(ReadersOf(rs, s), id)
  {
    if rs != [] {
      ReadersOfRemove(rs[1..], id, s);
      if rs[0].id != id {
        assert ([rs[0]] + RemoveReader(rs[1..], id))[1..] == RemoveReader(rs[1..], id);
      }
      if rs[0].subject == s {
        assert ([rs[0]] + ReadersOf(rs[1..], s))[1..] == ReadersOf(rs[1..], s);
      }
    }
  }

  lemma NoReadersOf(rs: seq<Reader>, s: nat)
    requires forall x :: x in rs ==> x.subject != s
    ensures ReadersOf(rs, s) == []
  {
    if ReadersOf(rs, s) != [] {
      assert ReadersOf(rs, s)[0] in ReadersOf(rs, s);
    }
  }

  lemma {:induction false} RemoveAbsent(rs: seq<Reader>, id: nat)
    requires forall i :: 0 <= i < |rs| ==> rs[i].id != id
    ensures RemoveReader(rs, id) == rs
  {
    if rs != [] {
      RemoveAbsent(rs[1..], id);
    }
  }

  /** Disposing the oldest subscriber leaves the others in order. */
  lemma RemoveOldest(ids: seq<nat>, key: ChartInfoKey, s: nat)
    requires |ids| >= 1 && IdsIncreasing(ReadersFor(ids, key, s))
    ensures RemoveReader(ReadersFor(ids, key, s), ids[0]) == ReadersFor(ids[1..], key, s)
  {
    var rs := ReadersFor(ids, key, s);
    assert rs[1..] == ReadersFor(ids[1..], key, s);
    forall i | 0 <= i < |rs[1..]| ensures rs[1..][i].id != ids[0] {
      assert rs[0].id < rs[i + 1].id;
    }
    RemoveAbsent(rs[1..], ids[0]);
  }

  // ---------------------------------------------------------------------------
  // A key with live subscribers

  /** `key` is active: subject `s` is open and registered, scheduler `sch` is
      registered, the counter equals the number of attached subscribers `ids`
      (oldest first), the key's disposable is an open feed, and `feeds` feed
      subscriptions of the key are open. */
  ghost predicate Holding(r: Registry, key: ChartInfoKey, s: nat, sch: nat, ids: seq<nat>, feeds: nat) {
    Wf(r) && Registered(r, key, s, sch) && Subscribed(r, key, s, ids) && Feeding(r, key, feeds)
  }

  /** The key is not failed and has open subject `s` and scheduler `sch`. */
  ghost predicate Registered(r: Registry, key: ChartInfoKey, s: nat, sch: nat) {
    && key !in r.failedKeys
    && key in r.subjects && r.subjects[key] == s
    && s in r.subjectStates && r.subjectStates[s] == Open
    && key in r.schedulers && r.schedulers[key] == sch
  }

  /** The counter of `key` counts the readers `ids` attached to `s`. */
  ghost predicate Subscribed(r: Registry, key: ChartInfoKey, s: nat, ids: seq<nat>) {
    && |ids| >= 1 && Counter(r, key) == |ids|
    && ReadersOf(r.readers, s) == ReadersFor(ids, key, s)
  }

  /** The key's disposable is one of its `feeds` open feeds. */
  ghost predicate Feeding(r: Registry, key: ChartInfoKey, feeds: nat) {
    && key in r.disposables && r.disposables[key] in OpenFeedsOf(r, key)
    && |OpenFeedsOf(r, key)| == feeds
  }

  /** `chartInfoObservable(key).subscribe()`. */
  function SubscribeOnce(r: Registry, key: ChartInfoKey): (res: (Registry, Subscription))
    requires Wf(r)
    ensures Wf(res.0)
    ensures key in r.failedKeys ==> res == (r, ErrorReceived)
  {
    var (r1, obs) := ChartInfoObservable(r, key);
    ChartInfoObservableWf(r, key);
    SubscribeWf(r1, obs);
    Subscribe(r1, obs)
  }

  /** `n` subscriptions in a row; the ids of the attached subscribers. */
  ghost function SubscribeTimes(r: Registry, key: ChartInfoKey, n: nat): (res: (Registry, seq<nat>))
    requires Wf(r)
    ensures Wf(res.0)
  {
    if n == 0 then (r, [])
    else
      var prev := SubscribeTimes(r, key, n - 1);
      var next := SubscribeOnce(prev.0, key);
      (next.0, prev.1 + if next.1.Attached? then [next.1.reader] else [])
  }

  /** Disposing the given subscriptions one after the other. */
  ghost function DisposeAll(r: Registry, ids: seq<nat>): Registry
    decreases |ids|
  {
    if ids == [] then r else DisposeAll(Dispose(r, ids[0]), ids[1..])
  }

  // ---------------------------------------------------------------------------
  // One subscription or dispose, written out

  /** The registry after the first subscription to an idle key: subject
      `nextId`, scheduler `nextId + 1`, feed `nextId + 2`, subscriber
      `nextId + 3`. */
  ghost function FreshActivation(r: Registry, key: ChartInfoKey): Registry {
    var s := r.nextId;
    r.(subjects := r.subjects[key := s],
       subjectStates := r.subjectStates[s := Open],
       subjectKeys := r.subjectKeys[s := key],
       observers := r.observers[key := Counter(r, key) + 1],
       schedulers := r.schedulers[key := s + 1],
       disposables := r.disposables[key := s + 2],
       openFeeds := r.openFeeds[s + 2 := key],
       readers := r.readers + [Reader(s + 3, key, s)],
       nextId := s + 4,
       log := r.log + [SchedulerCreated(key, s + 1),
                       FeedOpened(MarketInfoKey(key.coin, key.currency), s + 2),
                       SchedulerStarted(s + 1)])
  }

  /** The registry after one more subscription to an active key: feed
      `nextId`, subscriber `nextId + 1`. */
  ghost function SharedActivation(r: Registry, key: ChartInfoKey, s: nat, sch: nat): Registry {
    var d := r.nextId;
    r.(observers := r.observers[key := Counter(r, key) + 1],
       disposables := r.disposables[key := d],
       openFeeds := r.openFeeds[d := key],
       readers := r.readers + [Reader(d + 1, key, s)],
       nextId := d + 2,
       log := r.log + [FeedOpened(MarketInfoKey(key.coin, key.currency), d), SchedulerStarted(sch)])
  }

  /** The registry after the last subscriber `id` of an active key disposes. */
  ghost function Teardown(r: Registry, key: ChartInfoKey, s: nat, sch: nat, id: nat): Registry
    requires key in r.disposables
  {
    r.(subjects := r.subjects - {key},
       subjectStates := r.subjectStates[s := Completed],
       observers := r.observers[key := 0],
       schedulers := r.schedulers - {key},
       readers := WithoutSubject(RemoveReader(r.readers, id), s),
       openFeeds := r.openFeeds - {r.disposables[key]},
       log := r.log + [SubjectComplete(s), SchedulerStopped(sch), FeedDisposed(r.disposables[key])])
  }

  /** The subscribe hook on a key without a scheduler. */
  lemma HookFresh(r: Registry, key: ChartInfoKey)
    requires key !in r.schedulers
    ensures SubscribeHook(r, key) ==
      (r.(observers := r.observers[key := Counter(r, key) + 1],
          schedulers := r.schedulers[key := r.nextId],
          disposables := r.disposables[key := r.nextId + 1],
          openFeeds := r.openFeeds[r.nextId + 1 := key],
          nextId := r.nextId + 2,
          log := r.log + [SchedulerCreated(key, r.nextId),
                          FeedOpened(MarketInfoKey(key.coin, key.currency), r.nextId + 1),
                          SchedulerStarted(r.nextId)]),
       r.nextId)
  {
    var r2 := AddToCounter(r, key, 1);
    assert r2 == r.(observers := r.observers[key := Counter(r, key) + 1]);
    var r4 := GetScheduler(r2, key).0;
    assert r4.log == r.log + [SchedulerCreated(key, r.nextId), FeedOpened(MarketInfoKey(key.coin, key.currency), r.nextId + 1)];
  }

  /** The subscribe hook on a key whose scheduler is registered. */
  lemma HookShared(r: Registry, key: ChartInfoKey)
    requires key in r.schedulers
    ensures SubscribeHook(r, key) ==
      (r.(observers := r.observers[key := Counter(r, key) + 1],
          disposables := r.disposables[key := r.nextId],
          openFeeds := r.openFeeds[r.nextId := key],
          nextId := r.nextId + 1,
          log := r.log + [FeedOpened(MarketInfoKey(key.coin, key.currency), r.nextId),
                          SchedulerStarted(r.schedulers[key])]),
       r.schedulers[key])
  {
    var r2 := AddToCounter(r, key, 1);
    assert r2 == r.(observers := r.observers[key := Counter(r, key) + 1]);
    var r4 := GetScheduler(r2, key).0;
    assert r4.log == r.log + [FeedOpened(MarketInfoKey(key.coin, key.currency), r.nextId)];
  }

  lemma SubscribeOnceFresh(r: Registry, key: ChartInfoKey)
    requires Wf(r) && key !in r.failedKeys && key !in r.subjects && key !in r.schedulers
    ensures SubscribeOnce(r, key) == (FreshActivation(r, key), Attached(r.nextId + 3))
  {
    var s := r.nextId;
    var r1 := r.(subjects := r.subjects[key := s], subjectStates := r.subjectStates[s := Open],
                 subjectKeys := r.subjectKeys[s := key], nextId := s + 1);
    assert ChartInfoObservable(r, key) == (r1, SubjectObservable(key, s));
    HookFresh(r1, key);
  }

  lemma SubscribeOnceShared(r: Registry, key: ChartInfoKey)
    requires Wf(r) && key !in r.failedKeys && key in r.subjects && key in r.schedulers
    requires r.subjectStates[r.subjects[key]] == Open
    ensures SubscribeOnce(r, key) ==
      (SharedActivation(r, key, r.subjects[key], r.schedulers[key]), Attached(r.nextId + 1))
  {
    assert ChartInfoObservable(r, key) == (r, SubjectObservable(key, r.subjects[key]));
    HookShared(r, key);
  }

  /** The oldest subscription of an active key is found under its id. */
  lemma OldestFound(r: Registry, key: ChartInfoKey, s: nat, sch: nat, ids: seq<nat>, feeds: nat)
    requires Holding(r, key, s, sch, ids, feeds)
    ensures FindReader(r.readers, ids[0]) == Some(Reader(ids[0], key, s))
  {
    var x := Reader(ids[0], key, s);
    assert ReadersFor(ids, key, s)[0] == x;
    assert x in r.readers;
    FindUnique(r.readers, x);
  }

  lemma DisposeOldest(r: Registry, key: ChartInfoKey, s: nat, sch: nat, ids: seq<nat>, feeds: nat)
    requires Holding(r, key, s, sch, ids, feeds)
    ensures |ids| >= 2 ==>
      Dispose(r, ids[0]) == r.(readers := RemoveReader(r.readers, ids[0]), observers := r.observers[key := |ids| - 1])
    ensures |ids| == 1 ==> Dispose(r, ids[0]) == Teardown(r, key, s, sch, ids[0])
  {
    OldestFound(r, key, s, sch, ids, feeds);
    var r0 := r.(readers := RemoveReader(r.readers, ids[0]));
    assert Dispose(r, ids[0]) == Detach(r0, key);
    if |ids| == 1 {
      assert Detach(r0, key) == Teardown(r, key, s, sch, ids[0]) by {
        CleanupFires(AddToCounter(r0, key, -1), key);
      }
    }
  }

  // ---------------------------------------------------------------------------
  // The steps keep a key active, then idle

  lemma FreshWf(r: Registry, key: ChartInfoKey)
    requires Wf(r)
    ensures Wf(FreshActivation(r, key))
  {
    var r1 := FreshActivation(r, key);
    var s := r.nextId;
    forall k | k in r1.subjects ensures SubjectOf(r1, r1.subjects[k], k) {
      if k != key {
        assert SubjectOf(r, r.subjects[k], k);
      }
    }
    forall i | 0 <= i < |r1.readers| ensures SubjectOf(r1, r1.readers[i].subject, r1.readers[i].key) {
      if i < |r.readers| {
        assert r1.readers[i] == r.readers[i];
        assert SubjectOf(r, r.readers[i].subject, r.readers[i].key);
      }
    }
    AppendFresh(r.readers, Reader(s + 3, key, s));
  }

  lemma SharedWf(r: Registry, key: ChartInfoKey, s: nat, sch: nat)
    requires Wf(r) && SubjectOf(r, s, key)
    ensures Wf(SharedActivation(r, key, s, sch))
  {
    AppendFresh(r.readers, Reader(r.nextId + 1, key, s));
  }

  /** Opening a new feed for `key` adds one open feed of the key. */
  lemma FeedOpenedFor(r: Registry, r': Registry, d: nat, key: ChartInfoKey)
    requires Wf(r) && d >= r.nextId && r'.openFeeds == r.openFeeds[d := key]
    ensures OpenFeedsOf(r', key) == OpenFeedsOf(r, key) + {d}
    ensures |OpenFeedsOf(r', key)| == |OpenFeedsOf(r, key)| + 1
  {
    assert d !in r.openFeeds;
    assert OpenFeedsOf(r', key) == OpenFeedsOf(r, key) + {d};
  }

  /** No reader is attached to a subject that is yet to be created. */
  lemma FreshSubjectUnused(r: Registry)
    requires Wf(r)
    ensures ReadersOf(r.readers, r.nextId) == []
  {
    forall y | y in r.readers ensures y.subject != r.nextId {
      var i :| 0 <= i < |r.readers| && r.readers[i] == y;
    }
    NoReadersOf(r.readers, r.nextId);
  }

  lemma FreshHolds(r: Registry, key: ChartInfoKey)
    requires Wf(r) && key !in r.failedKeys
    requires key !in r.subjects && key !in r.schedulers && Counter(r, key) == 0
    ensures Holding(FreshActivation(r, key), key, r.nextId, r.nextId + 1, [r.nextId + 3], |OpenFeedsOf(r, key)| + 1)
  {
    FreshSubscribed(r, key);
    FreshWf(r, key);
    FeedOpenedFor(r, FreshActivation(r, key), r.nextId + 2, key);
  }

  lemma FreshSubscribed(r: Registry, key: ChartInfoKey)
    requires Wf(r) && Counter(r, key) == 0
    ensures Subscribed(FreshActivation(r, key), key, r.nextId, [r.nextId + 3])
  {
    var s := r.nextId;
    var r1 := FreshActivation(r, key);
    var x := Reader(s + 3, key, s);
    assert r1.readers == r.readers + [x] && Counter(r1, key) == 1;
    assert ReadersOf(r1.readers, s) == ReadersFor([x.id], key, s) by {
      FreshSubjectUnused(r);
      ReadersOfAppend(r.readers, x, s);
      ReadersForAppend([], x.id, key, s);
      assert [] + [x.id] == [x.id];
    }
  }

  lemma SharedHolds(r: Registry, key: ChartInfoKey, s: nat, sch: nat, ids: seq<nat>, feeds: nat)
    requires Holding(r, key, s, sch, ids, feeds)
    ensures Holding(SharedActivation(r, key, s, sch), key, s, sch, ids + [r.nextId + 1], feeds + 1)
  {
    SharedSubscribed(r, key, s, sch, ids);
    assert SubjectOf(r, r.subjects[key], key);
    SharedWf(r, key, s, sch);
    FeedOpenedFor(r, SharedActivation(r, key, s, sch), r.nextId, key);
  }

  lemma SharedSubscribed(r: Registry, key: ChartInfoKey, s: nat, sch: nat, ids: seq<nat>)
    requires Subscribed(r, key, s, ids)
    ensures Subscribed(SharedActivation(r, key, s, sch), key, s, ids + [r.nextId + 1])
  {
    var r1 := SharedActivation(r, key, s, sch);
    var x := Reader(r.nextId + 1, key, s);
    assert r1.readers == r.readers + [x] && Counter(r1, key) == |ids| + 1;
    assert ReadersOf(r1.readers, s) == ReadersFor(ids + [x.id], key, s) by {
      ReadersOfAppend(r.readers, x, s);
      ReadersForAppend(ids, x.id, key, s);
    }
  }

  lemma OldestHolds(r: Registry, key: ChartInfoKey, s: nat, sch: nat, ids: seq<nat>, feeds: nat)
    requires Holding(r, key, s, sch, ids, feeds) && |ids| >= 2
    ensures Holding(r.(readers := RemoveReader(r.readers, ids[0]), observers := r.observers[key := |ids| - 1]),
                    key, s, sch, ids[1..], feeds)
  {
    var r1 := r.(readers := RemoveReader(r.readers, ids[0]), observers := r.observers[key := |ids| - 1]);
    OldestSubscribed(r, key, s, ids);
    assert OpenFeedsOf(r1, key) == OpenFeedsOf(r, key);
    RemoveReaderWf(r, ids[0]);
  }

  lemma OldestSubscribed(r: Registry, key: ChartInfoKey, s: nat, ids: seq<nat>)
    requires Wf(r) && Subscribed(r, key, s, ids) && |ids| >= 2
    ensures Subscribed(r.(readers := RemoveReader(r.readers, ids[0]), observers := r.observers[key := |ids| - 1]),
                       key, s, ids[1..])
  {
    ReadersOfRemove(r.readers, ids[0], s);
    assert IdsIncreasing(ReadersOf(r.readers, s));
    RemoveOldest(ids, key, s);
  }

  /** Dropping a reader keeps the registry well formed. */
  lemma RemoveReaderWf(r: Registry, id: nat)
    requires Wf(r)
    ensures forall m :: Wf(r.(readers := RemoveReader(r.readers, id), observers := m))
  {
    var rs := RemoveReader(r.readers, id);
    forall i | 0 <= i < |rs| ensures rs[i].id < r.nextId && SubjectOf(r, rs[i].subject, rs[i].key) {
      assert rs[i] in r.readers;
      var j :| 0 <= j < |r.readers| && r.readers[j] == rs[i];
      assert SubjectOf(r, r.readers[j].subject, r.readers[j].key);
    }
  }

  lemma TeardownIdle(r: Registry, key: ChartInfoKey, s: nat, sch: nat, ids: seq<nat>, feeds: nat)
    requires Holding(r, key, s, sch, ids, feeds) && |ids| == 1
    ensures var r1 := Teardown(r, key, s, sch, ids[0]);
      && Wf(r1)
      && ReadersOf(r1.readers, s) == []
      && |OpenFeedsOf(r1, key)| == feeds - 1
      && OtherKeysUntouched(r, r1, key)
  {
    var r1 := Teardown(r, key, s, sch, ids[0]);
    assert OpenFeedsOf(r1, key) == OpenFeedsOf(r, key) - {r.disposables[key]};
    NoReadersOf(r1.readers, s);
    assert Wf(r1) by {
      forall i | 0 <= i < |r1.readers|
        ensures r1.readers[i].id < r1.nextId && SubjectOf(r1, r1.readers[i].subject, r1.readers[i].key)
      {
        assert r1.readers[i] in r.readers;
        var j :| 0 <= j < |r.readers| && r.readers[j] == r1.readers[i];
        assert SubjectOf(r, r.readers[j].subject, r.readers[j].key);
      }
    }
    forall k | k != key ensures SameKey(r, r1, k) {
    }
  }

  /** The first subscription to an idle key creates a fresh subject and a
      fresh scheduler (the factory is asked), opens a feed and starts the
      scheduler. */
  lemma FirstSubscribe(r: Registry, key: ChartInfoKey)
    requires Wf(r) && key !in r.failedKeys
    requires key !in r.subjects && key !in r.schedulers && Counter(r, key) == 0
    ensures var (r1, sub) := SubscribeOnce(r, key);
      && sub.Attached?
      && key in r1.subjects && r1.subjects[key] >= r.nextId
      && key in r1.schedulers && r1.schedulers[key] >= r.nextId
      && sub.reader >= r.nextId
      && Holding(r1, key, r1.subjects[key], r1.schedulers[key], [sub.reader], |OpenFeedsOf(r, key)| + 1)
      && r1.log == r.log + [SchedulerCreated(key, r1.schedulers[key]),
                            FeedOpened(MarketInfoKey(key.coin, key.currency), r1.disposables[key]),
                            SchedulerStarted(r1.schedulers[key])]
      && OtherKeysUntouched(r, r1, key)
  {
    SubscribeOnceFresh(r, key);
    FreshHolds(r, key);
    var r1 := FreshActivation(r, key);
    forall k | k != key ensures SameKey(r, r1, k) {
    }
  }

  /** A further subscription to an active key shares its subject and
      scheduler (the factory is not asked again), yet still opens a new feed
      and restarts the scheduler. */
  lemma SubscribeStep(r: Registry, key: ChartInfoKey, s: nat, sch: nat, ids: seq<nat>, feeds: nat)
    requires Holding(r, key, s, sch, ids, feeds)
    ensures var (r1, sub) := SubscribeOnce(r, key);
      && sub.Attached? && sub.reader >= r.nextId
      && Holding(r1, key, s, sch, ids + [sub.reader], feeds + 1)
      && r1.log == r.log + [FeedOpened(MarketInfoKey(key.coin, key.currency), r1.disposables[key]),
                            SchedulerStarted(sch)]
      && OtherKeysUntouched(r, r1, key)
  {
    SubscribeOnceShared(r, key);
    SharedHolds(r, key, s, sch, ids, feeds);
    var r1 := SharedActivation(r, key, s, sch);
    forall k | k != key ensures SameKey(r, r1, k) {
    }
  }

  /** Disposing the oldest of several subscribers only lowers the counter. */
  lemma DisposeStep(r: Registry, key: ChartInfoKey, s: nat, sch: nat, ids: seq<nat>, feeds: nat)
    requires Holding(r, key, s, sch, ids, feeds) && |ids| >= 2
    ensures Dispose(r, ids[0]) == r.(readers := RemoveReader(r.readers, ids[0]),
                                     observers := r.observers[key := |ids| - 1])
    ensures Holding(Dispose(r, ids[0]), key, s, sch, ids[1..], feeds)
    ensures OtherKeysUntouched(r, Dispose(r, ids[0]), key)
  {
    DisposeOldest(r, key, s, sch, ids, feeds);
    OldestHolds(r, key, s, sch, ids, feeds);
    var r2 := Dispose(r, ids[0]);
    forall k | k != key ensures SameKey(r, r2, k) {
    }
  }

  /** Disposing the last subscriber tears the key down: the subject completes
      and is unregistered, the scheduler stops and is unregistered, the key's
      latest feed is disposed; the counter (now 0) and the disposable stay
      registered. */
  lemma DisposeLast(r: Registry, key: ChartInfoKey, s: nat, sch: nat, ids: seq<nat>, feeds: nat)
    requires Holding(r, key, s, sch, ids, feeds) && |ids| == 1
    ensures var r1 := Dispose(r, ids[0]);
      && Wf(r1) && key !in r1.failedKeys
      && key !in r1.subjects && key !in r1.schedulers
      && key in r1.observers && Counter(r1, key) == 0
      && key in r1.disposables
      && s in r1.subjectStates && r1.subjectStates[s] == Completed
      && ReadersOf(r1.readers, s) == []
      && |OpenFeedsOf(r1, key)| == feeds - 1
      && r1.log == r.log + [SubjectComplete(s), SchedulerStopped(sch), FeedDisposed(r.disposables[key])]
      && OtherKeysUntouched(r, r1, key)
  {
    DisposeOldest(r, key, s, sch, ids, feeds);
    TeardownIdle(r, key, s, sch, ids, feeds);
  }

  lemma SubscribeTimesOne(r: Registry, key: ChartInfoKey, n: nat) returns (s: nat, sch: nat)
    requires Wf(r) && key !in r.failedKeys
    requires key !in r.subjects && key !in r.schedulers && Counter(r, key) == 0
    requires n == 1
    ensures s >= r.nextId && sch >= r.nextId
    ensures |SubscribeTimes(r, key, n).1| == n
    ensures Holding(SubscribeTimes(r, key, n).0, key, s, sch, SubscribeTimes(r, key, n).1, |OpenFeedsOf(r, key)| + n)
    ensures OtherKeysUntouched(r, SubscribeTimes(r, key, n).0, key)
  {
    var next := SubscribeOnce(r, key);
    FirstSubscribe(r, key);
    s, sch := next.0.subjects[key], next.0.schedulers[key];
    assert SubscribeTimes(r, key, n) == (next.0, [next.1.reader]) by {
      assert SubscribeTimes(r, key, n - 1) == (r, []);
      assert [] + [next.1.reader] == [next.1.reader];
    }
  }

  lemma SubscribeTimesNext(r: Registry, key: ChartInfoKey, m: nat, n: nat, s: nat, sch: nat)
    requires Wf(r) && m >= 1 && n == m + 1
    requires |SubscribeTimes(r, key, m).1| == m
    requires Holding(SubscribeTimes(r, key, m).0, key, s, sch, SubscribeTimes(r, key, m).1, |OpenFeedsOf(r, key)| + m)
    requires OtherKeysUntouched(r, SubscribeTimes(r, key, m).0, key)
    ensures |SubscribeTimes(r, key, n).1| == n
    ensures Holding(SubscribeTimes(r, key, n).0, key, s, sch, SubscribeTimes(r, key, n).1, |OpenFeedsOf(r, key)| + n)
    ensures OtherKeysUntouched(r, SubscribeTimes(r, key, n).0, key)
  {
    var prev := SubscribeTimes(r, key, m);
    var next := SubscribeOnce(prev.0, key);
    SubscribeStep(prev.0, key, s, sch, prev.1, |OpenFeedsOf(r, key)| + m);
    assert SubscribeTimes(r, key, n - 1) == prev;
    assert SubscribeTimes(r, key, n) == (next.0, prev.1 + [next.1.reader]);
    UntouchedTransitive(r, prev.0, next.0, key);
  }

  /** `n` subscriptions to an idle key activate it with subject `s` and
      scheduler `sch`, both fresh, and `n` attached subscribers. */
  lemma {:induction false} SubscribeTimesHolds(r: Registry, key: ChartInfoKey, n: nat) returns (s: nat, sch: nat)
    requires Wf(r) && key !in r.failedKeys
    requires key !in r.subjects && key !in r.schedulers && Counter(r, key) == 0
    requires n >= 1
    ensures s >= r.nextId && sch >= r.nextId
    ensures |SubscribeTimes(r, key, n).1| == n
    ensures Holding(SubscribeTimes(r, key, n).0, key, s, sch, SubscribeTimes(r, key, n).1, |OpenFeedsOf(r, key)| + n)
    ensures OtherKeysUntouched(r, SubscribeTimes(r, key, n).0, key)
  {
    if n == 1 {
      s, sch := SubscribeTimesOne(r, key, n);
    } else {
      var m: nat := n - 1;
      s, sch := SubscribeTimesHolds(r, key, m);
      SubscribeTimesNext(r, key, m, n, s, sch);
    }
  }

  lemma {:induction false} DisposeAllHolds(r: Registry, key: ChartInfoKey, s: nat, sch: nat, ids: seq<nat>, feeds: nat)
    requires Holding(r, key, s, sch, ids, feeds)
    ensures var r1 := DisposeAll(r, ids);
      && Wf(r1) && key !in r1.failedKeys
      && key !in r1.subjects && key !in r1.schedulers
      && key in r1.observers && Counter(r1, key) == 0
      && key in r1.disposables
      && s in r1.subjectStates && r1.subjectStates[s] == Completed
      && |OpenFeedsOf(r1, key)| == feeds - 1
      && OtherKeysUntouched(r, r1, key)
    decreases |ids|
  {
    if |ids| == 1 {
      DisposeLast(r, key, s, sch, ids, feeds);
      assert DisposeAll(r, ids) == DisposeAll(Dispose(r, ids[0]), []);
    } else {
      DisposeStep(r, key, s, sch, ids, feeds);
      DisposeAllHolds(Dispose(r, ids[0]), key, s, sch, ids[1..], feeds);
      UntouchedTransitive(r, Dispose(r, ids[0]), DisposeAll(r, ids), key);
    }
  }

  /** One activation cycle of an idle key: `n` subscriptions share one fresh
      subject and one fresh scheduler and raise the counter to `n`; disposing
      them all returns the key to idle (no subject, no scheduler, counter 0),
      so the next subscription starts a new cycle with new objects. Every
      subscription opens a feed but only the last one is disposed, so `n - 1`
      feed subscriptions of the key stay open. No other key is affected. */
  lemma ActivationCycle(r: Registry, key: ChartInfoKey, n: nat)
    requires Wf(r) && key !in r.failedKeys
    requires key !in r.subjects && key !in r.schedulers && Counter(r, key) == 0
    requires n >= 1
    ensures var (r1, ids) := SubscribeTimes(r, key, n);
      var r2 := DisposeAll(r1, ids);
      && |ids| == n
      && key in r1.subjects && r1.subjects[key] >= r.nextId
      && key in r1.schedulers && r1.schedulers[key] >= r.nextId
      && Counter(r1, key) == n
      && HasObservers(r1, r1.subjects[key])
      && Wf(r2) && key !in r2.failedKeys
      && key !in r2.subjects && key !in r2.schedulers && Counter(r2, key) == 0
      && r1.subjects[key] in r2.subjectStates && r2.subjectStates[r1.subjects[key]] == Completed
      && |OpenFeedsOf(r2, key)| == |OpenFeedsOf(r, key)| + n - 1
      && OtherKeysUntouched(r, r2, key)
  {
    var s, sch := SubscribeTimesHolds(r, key, n);
    var (r1, ids) := SubscribeTimes(r, key, n);
    DisposeAllHolds(r1, key, s, sch, ids, |OpenFeedsOf(r, key)| + n);
    UntouchedTransitive(r, r1, DisposeAll(r1, ids), key);
    assert HasObservers(r1, s) by {
      assert ReadersFor(ids, key, s)[0] in ReadersOf(r1.readers, s);
    }
  }

  // ---------------------------------------------------------------------------
  // Failing an active key

  /** The error hooks of `k` readers of one key, run in a row, amount to the
      last one: the counter falls to 1 and then the last hook cleans up. */
  lemma {:induction false} DetachAllCount(r: Registry, key: ChartInfoKey, rs: seq<Reader>)
    requires key in r.subjects && |rs| >= 1 && Counter(r, key) == |rs|
    requires forall i :: 0 <= i < |rs| ==> rs[i].key == key
    ensures DetachAll(r, rs) == Detach(r.(observers := r.observers[key := 1]), key)
    decreases |rs|
  {
    if |rs| == 1 {
      assert r.(observers := r.observers[key := 1]) == r;
      assert DetachAll(r, rs) == DetachAll(Detach(r, key), []);
    } else {
      var rest := rs[1..];
      DetachFirst(r, key, rs);
      DetachAllCount(Detach(r, key), key, rest);
    }
  }

  /** The error hook of one of several readers only lowers the counter. */
  lemma DetachFirst(r: Registry, key: ChartInfoKey, rs: seq<Reader>)
    requires key in r.subjects && |rs| >= 2 && Counter(r, key) == |rs| && rs[0].key == key
    ensures DetachAll(r, rs) == DetachAll(Detach(r, key), rs[1..])
    ensures Detach(r, key).(observers := Detach(r, key).observers[key := 1]) == r.(observers := r.observers[key := 1])
    ensures key in Detach(r, key).subjects && Counter(Detach(r, key), key) == |rs| - 1
  {
    var r1 := Detach(r, key);
    assert r1 == r.(observers := r.observers[key := |rs| - 1]);
    assert r1.observers[key := 1] == r.observers[key := 1];
  }

  /** The registry after a "no chart info" report on an active key. */
  ghost function ErrorTeardown(r: Registry, key: ChartInfoKey, s: nat, sch: nat): Registry
    requires key in r.disposables
  {
    r.(failedKeys := r.failedKeys + [key],
       subjects := r.subjects - {key},
       subjectStates := r.subjectStates[s := Errored],
       observers := r.observers[key := 0],
       schedulers := r.schedulers - {key},
       readers := WithoutSubject(r.readers, s),
       openFeeds := r.openFeeds - {r.disposables[key]},
       log := r.log + [SubjectError(s), SubjectComplete(s), SchedulerStopped(sch), FeedDisposed(r.disposables[key])])
  }

  lemma {:induction false} WithoutSubjectTwice(rs: seq<Reader>, s: nat)
    ensures WithoutSubject(WithoutSubject(rs, s), s) == WithoutSubject(rs, s)
  {
    if rs != [] {
      WithoutSubjectTwice(rs[1..], s);
      if rs[0].subject != s {
        assert ([rs[0]] + WithoutSubject(rs[1..], s))[1..] == WithoutSubject(rs[1..], s);
      }
    }
  }

  /** The registry once the subject has errored and every subscriber but
      the last has detached. */
  ghost function AfterError(r: Registry, key: ChartInfoKey, s: nat): Registry {
    r.(failedKeys := r.failedKeys + [key],
       subjectStates := r.subjectStates[s := Errored],
       readers := WithoutSubject(r.readers, s),
       log := r.log + [SubjectError(s)])
  }

  /** The dispose and error hooks: decrement, then cleanup. */
  lemma DetachIsCleanup(r: Registry, key: ChartInfoKey)
    ensures Detach(r, key) == Cleanup(AddToCounter(r, key, -1), key)
  {
  }

  /** Cleanup of a key whose subject has already terminated and whose
      counter is not positive: the subject state stays, everything else of the
      key is torn down. */
  lemma CleanupTerminated(r: Registry, key: ChartInfoKey)
    requires key in r.subjects && key in r.observers && r.observers[key] <= 0
    requires key in r.schedulers && key in r.disposables
    requires r.subjects[key] in r.subjectStates && r.subjectStates[r.subjects[key]] != Open
    ensures Cleanup(r, key) ==
      r.(subjects := r.subjects - {key},
         schedulers := r.schedulers - {key},
         readers := WithoutSubject(r.readers, r.subjects[key]),
         openFeeds := r.openFeeds - {r.disposables[key]},
         log := r.log + [SubjectComplete(r.subjects[key]), SchedulerStopped(r.schedulers[key]),
                         FeedDisposed(r.disposables[key])])
  {
  }

  lemma LastErrorHook(r: Registry, key: ChartInfoKey, s: nat, sch: nat)
    requires Registered(r, key, s, sch) && key in r.disposables
    ensures var r2 := AfterError(r, key, s);
      Detach(r2.(observers := r2.observers[key := 1]), key) == ErrorTeardown(r, key, s, sch)
  {
    var r2 := AfterError(r, key, s);
    var r3 := r2.(observers := r2.observers[key := 1]);
    var r4 := r2.(observers := r2.observers[key := 0]);
    DetachIsCleanup(r3, key);
    assert AddToCounter(r3, key, -1) == r4;
    var d := r.disposables[key];
    assert r4.log + [SubjectComplete(s), SchedulerStopped(sch), FeedDisposed(d)]
        == r.log + [SubjectError(s), SubjectComplete(s), SchedulerStopped(sch), FeedDisposed(d)];
    CleanupTerminated(r4, key);
    WithoutSubjectTwice(r.readers, s);
  }

  lemma NoChartInfoShape(r: Registry, key: ChartInfoKey, s: nat, sch: nat, ids: seq<nat>, feeds: nat)
    requires Holding(r, key, s, sch, ids, feeds)
    ensures NoChartInfo(r, key) == ErrorTeardown(r, key, s, sch)
  {
    assert HasObservers(r, s) by {
      assert ReadersFor(ids, key, s)[0] in ReadersOf(r.readers, s);
    }
    var r2 := AfterError(r, key, s);
    assert NoChartInfo(r, key) == DetachAll(r2, ReadersOf(r.readers, s));
    DetachAllCount(r2, key, ReadersOf(r.readers, s));
    LastErrorHook(r, key, s, sch);
  }

  lemma ErrorTeardownIdle(r: Registry, key: ChartInfoKey, s: nat, sch: nat, ids: seq<nat>, feeds: nat)
    requires Holding(r, key, s, sch, ids, feeds)
    ensures var r1 := ErrorTeardown(r, key, s, sch);
      && Wf(r1)
      && ReadersOf(r1.readers, s) == []
      && |OpenFeedsOf(r1, key)| == feeds - 1
  {
    var r1 := ErrorTeardown(r, key, s, sch);
    assert OpenFeedsOf(r1, key) == OpenFeedsOf(r, key) - {r.disposables[key]};
    NoReadersOf(r1.readers, s);
    assert Wf(r1) by {
      forall i | 0 <= i < |r1.readers|
        ensures r1.readers[i].id < r1.nextId && SubjectOf(r1, r1.readers[i].subject, r1.readers[i].key)
      {
        assert r1.readers[i] in r.readers;
        var j :| 0 <= j < |r.readers| && r.readers[j] == r1.readers[i];
        assert SubjectOf(r, r.readers[j].subject, r.readers[j].key);
      }
    }
  }

  /** A "no chart info" report for an active key fails it for good: every
      subscriber receives the error and detaches, the last detach completes
      the (already errored) subject and tears the key down, and from then on
      the key's observable is the immediate error. */
  lemma NoChartInfoOnActiveKey(r: Registry, key: ChartInfoKey, s: nat, sch: nat, ids: seq<nat>, feeds: nat)
    requires Holding(r, key, s, sch, ids, feeds)
    ensures var r1 := NoChartInfo(r, key);
      && Wf(r1)
      && key in r1.failedKeys
      && key !in r1.subjects && key !in r1.schedulers && Counter(r1, key) == 0
      && s in r1.subjectStates && r1.subjectStates[s] == Errored
      && ReadersOf(r1.readers, s) == []
      && r1.log == r.log + [SubjectError(s), SubjectComplete(s), SchedulerStopped(sch), FeedDisposed(r.disposables[key])]
      && |OpenFeedsOf(r1, key)| == feeds - 1
      && ChartInfoObservable(r1, key) == (r1, ErrorObservable)
      && OtherKeysUntouched(r, r1, key)
  {
    NoChartInfoShape(r, key, s, sch, ids, feeds);
    ErrorTeardownIdle(r, key, s, sch, ids, feeds);
    NoChartInfoOtherKeys(r, key);
  }

  /** noChartInfo on an active key leaves the key blacklisted and its former
      subject errored and orphaned. */
  lemma NoChartInfoOrphans(r: Registry, key: ChartInfoKey, s: nat, sch: nat, ids: seq<nat>, feeds: nat)
    requires Holding(r, key, s, sch, ids, feeds)
    ensures key in NoChartInfo(r, key).failedKeys && Orphaned(NoChartInfo(r, key), key, s)
  {
    NoChartInfoOnActiveKey(r, key, s, sch, ids, feeds);
    assert SubjectOf(r, r.subjects[key], key);
  }

  /** Subject `s` of `key` has errored and the key has neither a subject nor a
      scheduler registered, and a counter of 0. */
  ghost predicate Orphaned(r: Registry, key: ChartInfoKey, s: nat) {
    && key !in r.subjects && key !in r.schedulers && Counter(r, key) == 0
    && SubjectOf(r, s, key) && r.subjectStates[s] == Errored
  }

  /** What subscribing to the orphaned subject `s` of `key` does: the
      subscriber gets the error at once, yet a new scheduler is created,
      started and fed for the key, and a cleanup of the key leaves it running. */
  ghost predicate LeavesSchedulerRunning(r: Registry, key: ChartInfoKey, s: nat)
    requires SubjectOf(r, s, key)
  {
    var (r2, sub) := Subscribe(r, SubjectObservable(key, s));
    && sub == ErrorReceived
    && r2.failedKeys == r.failedKeys && key !in r2.subjects && Counter(r2, key) == 0
    && key in r2.schedulers && r2.schedulers[key] == r.nextId
    && r2.log == r.log + [SchedulerCreated(key, r.nextId),
                          FeedOpened(MarketInfoKey(key.coin, key.currency), r.nextId + 1),
                          SchedulerStarted(r.nextId)]
    && Cleanup(r2, key) == r2
  }

  /** Subscribing to an errored subject of a key that has no subject and no
      scheduler registered: the hook creates, starts and feeds a new
      scheduler, the error hook lowers the counter back to 0, and the cleanup
      that follows finds no subject and leaves that scheduler running. */
  lemma SubscribeToOrphanedSubject(r: Registry, key: ChartInfoKey, s: nat)
    requires Orphaned(r, key, s)
    ensures LeavesSchedulerRunning(r, key, s)
  {
    HookFresh(r, key);
  }

  /** An observable handed out before the key failed can still be subscribed
      to: getScheduler has no failed-key check, so the subscribe hook creates,
      starts and feeds a new scheduler for the failed key; the error hook then
      finds no subject, so cleanup returns early and that scheduler is never
      stopped. */
  lemma StaleObservableAfterFailure(r: Registry, key: ChartInfoKey, s: nat, sch: nat, ids: seq<nat>, feeds: nat)
    requires Holding(r, key, s, sch, ids, feeds)
    ensures var r1 := NoChartInfo(r, key);
      key in r1.failedKeys && Orphaned(r1, key, s) && LeavesSchedulerRunning(r1, key, s)
  {
    NoChartInfoOrphans(r, key, s, sch, ids, feeds);
    SubscribeToOrphanedSubject(NoChartInfo(r, key), key, s);
  }
}
