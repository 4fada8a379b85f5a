/**
 * The chart-info subscription multiplexer as the object it is: its registries
 * are fields that the methods update in place. Each method is proved to have
 * exactly the effect of the matching function of ChartInfoRegistry, so every
 * property proved there holds for the object.
 */
module ChartInfoSync {
  import opened Wrappers
  import opened Entities
  import opened ChartInfoRegistry

  class ChartInfoSyncManager {
    var subjects: map<ChartInfoKey, nat>
    var schedulers: map<ChartInfoKey, nat>
    var observers: map<ChartInfoKey, int>
    var failedKeys: seq<ChartInfoKey>
    var disposables: map<ChartInfoKey, nat>
    /** Whether each subject created so far is open, completed or errored. */
    var subjectStates: map<nat, SubjectState>
    /** The key each subject was created for. */
    ghost var subjectKeys: map<nat, ChartInfoKey>
    /** The downstream observers attached to the subjects, in attach order. */
    var readers: seq<Reader>
    /** Latest-rate feed subscriptions not yet disposed, with their chart key. */
    var openFeeds: map<nat, ChartInfoKey>
    /** Names the next object created. */
    var nextId: nat
    ghost var log: seq<Event>

    ghost function Model(): Registry
      reads this
    {
      Registry(subjects, schedulers, observers, failedKeys, disposables,
               subjectStates, subjectKeys, readers, openFeeds, nextId, log)
    }

    ghost predicate Valid()
      reads this
    {
      Wf(Model())
    }

    constructor()
      ensures Model() == Initial && Valid()
    {
      subjects, schedulers, observers, failedKeys, disposables := map[], map[], map[], [], map[];
      subjectStates, subjectKeys, readers, openFeeds, nextId, log := map[], map[], [], map[], 0, [];
    }

    method GetCounter(key: ChartInfoKey) returns (c: int)
      modifies this
      ensures (Model(), c) == ChartInfoRegistry.GetCounter(old(Model()), key)
    {
      if key in observers {
        c := observers[key];
      } else {
        observers := observers[key := 0];
        c := 0;
      }
    }

    method GetSubject(key: ChartInfoKey) returns (s: nat)
      modifies this
      ensures (Model(), s) == ChartInfoRegistry.GetSubject(old(Model()), key)
    {
      if key in subjects {
        s := subjects[key];
      } else {
        s := nextId;
        nextId := nextId + 1;
        subjectStates := subjectStates[s := Open];
        subjectKeys := subjectKeys[s := key];
        subjects := subjects[key := s];
      }
    }

    method ObserveLatestRates(key: ChartInfoKey)
      modifies this
      ensures Model() == ChartInfoRegistry.ObserveLatestRates(old(Model()), key)
    {
      var feed := nextId;
      nextId := nextId + 1;
      openFeeds := openFeeds[feed := key];
      log := log + [FeedOpened(MarketInfoKey(key.coin, key.currency), feed)];
      disposables := disposables[key := feed];
    }

    method GetScheduler(key: ChartInfoKey) returns (sch: nat)
      modifies this
      ensures (Model(), sch) == ChartInfoRegistry.GetScheduler(old(Model()), key)
    {
      if key in schedulers {
        sch := schedulers[key];
      } else {
        sch := nextId;
        nextId := nextId + 1;
        log := log + [SchedulerCreated(key, sch)];
        schedulers := schedulers[key := sch];
      }
      ObserveLatestRates(key);
    }

    method CompleteSubject(key: ChartInfoKey)
      requires key in subjects
      modifies this
      ensures Model() == ChartInfoRegistry.CompleteSubject(old(Model()), key)
    {
      var s := subjects[key];
      if s in subjectStates && subjectStates[s] == Open {
        subjectStates := subjectStates[s := Completed];
      }
      readers := WithoutSubject(readers, s);
      log := log + [SubjectComplete(s)];
      subjects := subjects - {key};
    }

    method StopScheduler(key: ChartInfoKey)
      modifies this
      ensures Model() == ChartInfoRegistry.StopScheduler(old(Model()), key)
    {
      if key in schedulers {
        log := log + [SchedulerStopped(schedulers[key])];
      }
      schedulers := schedulers - {key};
    }

    method DisposeFeed(key: ChartInfoKey)
      modifies this
      ensures Model() == ChartInfoRegistry.DisposeFeed(old(Model()), key)
    {
      if key in disposables {
        openFeeds := openFeeds - {disposables[key]};
        log := log + [FeedDisposed(disposables[key])];
      }
    }

    method Cleanup(key: ChartInfoKey)
      modifies this
      ensures Model() == ChartInfoRegistry.Cleanup(old(Model()), key)
    {
      if key !in subjects {
        return;
      }
      var c := GetCounter(key);
      if c > 0 {
        return;
      }
      CompleteSubject(key);
      StopScheduler(key);
      DisposeFeed(key);
    }

    /** The dispose and error hooks: decrement the counter, then clean up. */
    method Detach(key: ChartInfoKey)
      modifies this
      ensures Model() == ChartInfoRegistry.Detach(old(Model()), key)
    {
      var c := GetCounter(key);
      observers := observers[key := c - 1];
      Cleanup(key);
    }

    method ChartInfoObservable(key: ChartInfoKey) returns (obs: Observable)
      requires Valid()
      modifies this
      ensures (Model(), obs) == ChartInfoRegistry.ChartInfoObservable(old(Model()), key)
      ensures Valid() && (obs.SubjectObservable? ==> SubjectOf(Model(), obs.subject, key))
      ensures SubjectsKept(old(Model()), Model())
    {
      ChartInfoObservableWf(Model(), key);
      if key in failedKeys {
        return ErrorObservable;
      }
      var s := GetSubject(key);
      obs := SubjectObservable(key, s);
    }

    /** The subscribe hook: count the observer, then start the key's scheduler. */
    method SubscribeHook(key: ChartInfoKey) returns (sch: nat)
      modifies this
      ensures (Model(), sch) == ChartInfoRegistry.SubscribeHook(old(Model()), key)
    {
      var c := GetCounter(key);
      observers := observers[key := c + 1];
      sch := GetScheduler(key);
      log := log + [SchedulerStarted(sch)];
    }

    /** A new downstream observer starts reading subject `s`. */
    method Attach(key: ChartInfoKey, s: nat) returns (id: nat)
      modifies this
      ensures id == old(nextId)
      ensures Model() == old(Model()).(readers := old(readers) + [Reader(id, key, s)], nextId := id + 1)
    {
      id := nextId;
      readers := readers + [Reader(id, key, s)];
      nextId := id + 1;
    }

    method Subscribe(obs: Observable) returns (sub: Subscription)
      requires Valid() && (obs.SubjectObservable? ==> SubjectOf(Model(), obs.subject, obs.key))
      modifies this
      ensures (Model(), sub) == ChartInfoRegistry.Subscribe(old(Model()), obs)
      ensures Valid() && SubjectsKept(old(Model()), Model())
    {
      ghost var after := ChartInfoRegistry.Subscribe(Model(), obs).0;
      assert Wf(after) by {
        SubscribeWf(Model(), obs);
      }
      if obs.ErrorObservable? {
        return ErrorReceived;
      }
      var key := obs.key;
      var _ := SubscribeHook(key);

      var state := subjectStates[obs.subject];
      if state == Open {
        var id := Attach(key, obs.subject);
        sub := Attached(id);
      } else if state == Completed {
        sub := CompleteReceived;
      } else {
        Detach(key);
        sub := ErrorReceived;
      }
    }

    method Dispose(id: nat)
      requires Valid()
      modifies this
      ensures Model() == ChartInfoRegistry.Dispose(old(Model()), id)
      ensures Valid() && SubjectsKept(old(Model()), Model())
    {
      DisposeWf(Model(), id);
      var found := FindReader(readers, id);
      if found.Some? {
        readers := RemoveReader(readers, id);
        Detach(found.value.key);
      }
    }

    method OnUpdate(info: ChartInfo, key: ChartInfoKey)
      requires Valid()
      modifies this
      ensures Model() == ChartInfoRegistry.OnUpdate(old(Model()), info, key)
      ensures Valid() && SubjectsKept(old(Model()), Model())
    {
      if key in subjects {
        log := log + [SubjectNext(subjects[key], info)];
      }
    }

    /** Runs the error hook of each of `rs`, in order. */
    method DetachReaders(rs: seq<Reader>)
      modifies this
      ensures Model() == DetachAll(old(Model()), rs)
    {
      var i := 0;
      while i < |rs|
        invariant 0 <= i <= |rs|
        invariant DetachAll(old(Model()), rs) == DetachAll(Model(), rs[i..])
      {
        assert rs[i..][1..] == rs[i + 1..];
        Detach(rs[i].key);
        i := i + 1;
      }
    }

    /** `subject.onError`: the subject becomes errored and its readers leave it. */
    method ErrorSubject(s: nat)
      modifies this
      ensures Model() == old(Model()).(subjectStates := old(subjectStates)[s := Errored],
                                       readers := WithoutSubject(old(readers), s),
                                       log := old(log) + [SubjectError(s)])
    {
      subjectStates := subjectStates[s := Errored];
      readers := WithoutSubject(readers, s);
      log := log + [SubjectError(s)];
    }

    method NoChartInfo(key: ChartInfoKey)
      requires Valid()
      modifies this
      ensures Model() == ChartInfoRegistry.NoChartInfo(old(Model()), key)
      ensures Valid() && OtherKeysUntouched(old(Model()), Model(), key)
      ensures SubjectsKept(old(Model()), Model())
    {
      NoChartInfoWf(Model(), key);
      NoChartInfoOtherKeys(Model(), key);
      failedKeys := failedKeys + [key];
      if key !in subjects {
        return;
      }
      var s := subjects[key];
      var rs := ReadersOf(readers, s);
      if rs == [] {
        return;
      }
      ErrorSubject(s);
      DetachReaders(rs);
    }

    method OnFeedValue(feed: nat)
      requires Valid()
      modifies this
      ensures Model() == ChartInfoRegistry.OnFeedValue(old(Model()), feed)
      ensures Valid() && SubjectsKept(old(Model()), Model())
    {
      if feed in openFeeds {
        log := log + [ChartUpdateRequested(openFeeds[feed])];
      }
    }

    method OnFeedError(feed: nat)
      requires Valid()
      modifies this
      ensures Model() == ChartInfoRegistry.OnFeedError(old(Model()), feed)
      ensures Valid() && SubjectsKept(old(Model()), Model())
    {
      openFeeds := openFeeds - {feed};
    }
  }
}
