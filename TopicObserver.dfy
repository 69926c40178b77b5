/** The topic-partitioned subject: a map from an integer message type to a
    singly-linked list of observers. Observers are added at the head of
    their topic's list, removed by a first-match cursor walk, and notified
    topic by topic in ascending key order, or all at once through the
    `ALL` message type. */
module TopicObserver {
  import opened Observers
  import opened Lists
  import opened OrderedKeys
  import opened KeyedLists

  // The values of `Subject::MessageTypes`.
  const DATA: int := 0
  const MQTT: int := 1
  const LOG: int := 2
  const ALL: int := 3

  type ObserversMap = map<int, seq<Observer>>

  /** Whether `notify(event)` visits the list stored under `key`. */
  predicate Matches(event: int, key: int)
  {
    event == ALL || event == key
  }

  /** The observers notified while walking `keys` in order, each matching
      list head-first. */
  function Collect(m: ObserversMap, keys: seq<int>, event: int): (r: seq<Observer>)
  {
    if keys == [] then []
    else
      var last := keys[|keys| - 1];
      Collect(m, keys[..|keys| - 1], event) + (if Matches(event, last) then ListAt(m, last) else [])
  }

  /** Every list of `keys` in order, with no filter. */
  function Flatten(m: ObserversMap, keys: seq<int>): (r: seq<Observer>)
  {
    if keys == [] then [] else Flatten(m, keys[..|keys| - 1]) + ListAt(m, keys[|keys| - 1])
  }

  /** The number of entries in the lists of `keys`. */
  function Entries(m: ObserversMap, keys: seq<int>): (r: nat)
  {
    if keys == [] then 0 else Entries(m, keys[..|keys| - 1]) + |ListAt(m, keys[|keys| - 1])|
  }

  /** The observers `notify(event)` reaches, in the order it reaches them. */
  function Notified(m: ObserversMap, event: int): (r: seq<Observer>)
  {
    Collect(m, SortedKeys(m.Keys), event)
  }

  /** Walking one key further appends that key's list when it matches. */
  lemma CollectStep(m: ObserversMap, keys: seq<int>, i: nat, event: int)
    requires i < |keys|
    ensures Collect(m, keys[..i + 1], event)
            == Collect(m, keys[..i], event) + (if Matches(event, keys[i]) then ListAt(m, keys[i]) else [])
  {
    assert keys[..i + 1][..i] == keys[..i];
  }

  /** Over keys that occur at most once, a concrete message type picks out
      exactly its own list. */
  lemma {:induction false} CollectOne(m: ObserversMap, keys: seq<int>, event: int)
    requires StrictlyIncreasing(keys)
    requires event != ALL
    ensures Collect(m, keys, event) == if event in keys then ListAt(m, event) else []
  {
    if keys != [] {
      var init := keys[..|keys| - 1];
      var last := keys[|keys| - 1];
      assert StrictlyIncreasing(init);
      CollectOne(m, init, event);
      assert keys == init + [last];
      if event == last {
        assert event !in init by {
          forall i | 0 <= i < |init| ensures init[i] != last {
            assert keys[i] < keys[|keys| - 1];
          }
        }
      }
    }
  }

  /** The wildcard visits every list. */
  lemma {:induction false} CollectAll(m: ObserversMap, keys: seq<int>)
    ensures Collect(m, keys, ALL) == Flatten(m, keys)
  {
    if keys != [] {
      CollectAll(m, keys[..|keys| - 1]);
    }
  }

  /** An observer is in the flattened lists exactly when one of them holds it. */
  lemma {:induction false} FlattenHas(m: ObserversMap, keys: seq<int>, o: Observer)
    ensures o in Flatten(m, keys) <==> exists k :: k in keys && o in ListAt(m, k)
  {
    if keys != [] {
      var init := keys[..|keys| - 1];
      var last := keys[|keys| - 1];
      FlattenHas(m, init, o);
      assert keys == init + [last];
      if o in ListAt(m, last) {
        assert last in keys;
      }
    }
  }

  lemma {:induction false} FlattenLength(m: ObserversMap, keys: seq<int>)
    ensures |Flatten(m, keys)| == Entries(m, keys)
  {
    if keys != [] {
      FlattenLength(m, keys[..|keys| - 1]);
    }
  }

  /** `notify(k)` for a message type other than `ALL` visits list `k`
      head-first, and nobody when topic `k` is absent. */
  lemma NotifyTopic(m: ObserversMap, event: int)
    requires event != ALL
    ensures Notified(m, event) == ListAt(m, event)
  {
    CollectOne(m, SortedKeys(m.Keys), event);
  }

  /** `notify(ALL)` visits every list in ascending key order, once per stored
      entry. */
  lemma NotifyAll(m: ObserversMap)
    ensures Notified(m, ALL) == Flatten(m, SortedKeys(m.Keys))
    ensures |Notified(m, ALL)| == Entries(m, SortedKeys(m.Keys))
  {
    var keys := SortedKeys(m.Keys);
    CollectAll(m, keys);
    FlattenLength(m, keys);
  }

  /** `notify(ALL)` reaches an observer exactly when some topic holds it. */
  lemma NotifyAllReaches(m: ObserversMap, o: Observer)
    ensures o in Notified(m, ALL) <==> exists k :: k in m && o in m[k]
  {
    var keys := SortedKeys(m.Keys);
    CollectAll(m, keys);
    FlattenHas(m, keys, o);
    if o in Notified(m, ALL) {
      var k :| k in keys && o in ListAt(m, k);
      assert k in m && o in m[k];
    }
    if exists k :: k in m && o in m[k] {
      var k :| k in m && o in m[k];
      assert k in keys && o in ListAt(m, k);
    }
  }

  /** After `addObserver(t, o)`, `notify(t)` reaches `o` first and then the
      old list; no entry is merged, so `o` is reached once more than
      before; every other concrete topic is notified as before. */
  lemma PrependThenNotify(m: ObserversMap, t: int, o: Observer, e: int)
    requires t != ALL && e != ALL
    ensures Notified(Prepend(m, t, o), t) == [o] + ListAt(m, t)
    ensures multiset(Notified(Prepend(m, t, o), t))[o] == multiset(ListAt(m, t))[o] + 1
    ensures e != t ==> Notified(Prepend(m, t, o), e) == Notified(m, e)
  {
    NotifyTopic(Prepend(m, t, o), t);
    NotifyTopic(Prepend(m, t, o), e);
    NotifyTopic(m, e);
  }

  /** After `removeObserver(t, o)`, `notify(t)` reaches `o` once fewer when
      topic `t` held it, so not at all when it was there once; every other
      concrete topic is notified as before. */
  lemma EraseFirstThenNotify(m: ObserversMap, t: int, o: Observer, e: int)
    requires t != ALL && e != ALL
    ensures multiset(Notified(EraseFirst(m, t, o), t))[o]
            == if o in ListAt(m, t) then multiset(ListAt(m, t))[o] - 1 else 0
    ensures multiset(ListAt(m, t))[o] == 1 ==> o !in Notified(EraseFirst(m, t, o), t)
    ensures e != t ==> Notified(EraseFirst(m, t, o), e) == Notified(m, e)
  {
    NotifyTopic(EraseFirst(m, t, o), t);
    RemoveFirstCount(ListAt(m, t), o);
    NotifyTopic(EraseFirst(m, t, o), e);
    NotifyTopic(m, e);
  }

  /** With the demo's three topics, `notify(ALL)` walks DATA, MQTT, LOG. */
  lemma NotifyAllOfThree(m: ObserversMap)
    requires m.Keys == {DATA, MQTT, LOG}
    ensures Notified(m, ALL) == ListAt(m, DATA) + ListAt(m, MQTT) + ListAt(m, LOG)
  {
    SortedKeysOfThree();
    NotifyAll(m);
    FlattenOfThree(m);
  }

  lemma FlattenOfThree(m: ObserversMap)
    ensures Flatten(m, [0, 1, 2]) == ListAt(m, 0) + ListAt(m, 1) + ListAt(m, 2)
  {
    assert [0][..0] == [];
    assert Flatten(m, [0]) == ListAt(m, 0);
    assert [0, 1][..1] == [0];
    assert Flatten(m, [0, 1]) == ListAt(m, 0) + ListAt(m, 1);
    assert [0, 1, 2][..2] == [0, 1];
  }

  /** What `removeObserver` reports. */
  datatype RemoveReport =
    | TopicNotFound      // "Topic not found"
    | NotFoundInEvent    // "<name> not found in event #<topic>"
    | Removed            // "<name> removed"

  class Subject {
    var observers: ObserversMap

    constructor ()
      ensures observers == map[]
    {
      observers := map[];
    }

    /** Creates the topic's list when it is missing, then pushes the
        observer to its head. The handle is dereferenced for its name, so it
        is not null. */
    method AddObserver(messageType: int, observer: Observer)
      modifies this
      ensures observers == Prepend(old(observers), messageType, observer)
    {
      if messageType !in observers {
        observers := observers[messageType := []];
      }
      observers := observers[messageType := [observer] + observers[messageType]];
    }

    /** Looks the topic up without creating it; on a known topic erases the
        first entry identical to `observer` and then clears the caller's
        handle, which is returned as `handle`. On a known topic the handle is
        dereferenced for its name on both outcomes, so it is not null there;
        a missing topic never touches it. */
    method RemoveObserver(messageType: int, observer: Observer?)
      returns (handle: Observer?, report: RemoveReport)
      requires messageType in observers ==> observer != null
      modifies this
      ensures messageType !in old(observers) ==> observers == old(observers)
      ensures messageType in old(observers) ==> observers == EraseFirst<Observer>(old(observers), messageType, observer)
      ensures report == TopicNotFound <==> messageType !in old(observers)
      ensures report == Removed <==> messageType in old(observers) && observer in old(observers)[messageType]
      ensures handle == if report == Removed then null else observer
    {
      if messageType !in observers {
        return observer, TopicNotFound;
      }
      var target: Observer := observer;
      var list, found := EraseFirstMatch(observers[messageType], target);
      observers := observers[messageType := list];
      if found {
        handle, report := null, Removed;
      } else {
        assert observers == old(observers);
        handle, report := observer, NotFoundInEvent;
      }
    }

    /** Walks the map in key order and, for each matching topic, its list
        head-first, notifying every entry. */
    method Notify(event: int) returns (notified: seq<Observer>)
      ensures notified == Notified(observers, event)
    {
      var keys := SortedKeys(observers.Keys);
      notified := [];
      for i := 0 to |keys|
        invariant notified == Collect(observers, keys[..i], event)
      {
        CollectStep(observers, keys, i, event);
        if event == ALL || event == keys[i] {
          assert keys[i] in observers;
          var visited := NotifyEach(observers[keys[i]]);
          notified := notified + visited;
        }
      }
      assert keys[..|keys|] == keys;
    }
  }

  /** The seven registrations of the demo, by topic: LOG gets observers 1, 5
      and 6, DATA gets 2, 7 and 8, MQTT gets 3. */
  method RegisterDemo(subject: Subject, o1: Observer, o2: Observer, o3: Observer,
                      o5: Observer, o6: Observer, o7: Observer, o8: Observer)
    requires subject.observers == map[]
    modifies subject
    ensures subject.observers == map[DATA := [o8, o7, o2], MQTT := [o3], LOG := [o6, o5, o1]]
  {
    subject.AddObserver(LOG, o1);
    subject.AddObserver(DATA, o2);
    subject.AddObserver(MQTT, o3);
    subject.AddObserver(LOG, o5);
    subject.AddObserver(LOG, o6);
    subject.AddObserver(DATA, o7);
    subject.AddObserver(DATA, o8);
    ThreeLists(subject.observers, DATA, [o8, o7, o2], MQTT, [o3], LOG, [o6, o5, o1]);
  }

  /** What `notify(ALL)` reaches after the demo's registrations. */
  lemma NotifiedDemo(m: ObserversMap, o1: Observer, o2: Observer, o3: Observer,
                     o5: Observer, o6: Observer, o7: Observer, o8: Observer)
    requires m == map[DATA := [o8, o7, o2], MQTT := [o3], LOG := [o6, o5, o1]]
    ensures Names(Notified(m, ALL)) == [o8.name, o7.name, o2.name, o3.name, o6.name, o5.name, o1.name]
  {
    NotifyAllOfThree(m);
    assert Notified(m, ALL) == [o8, o7, o2, o3, o6, o5, o1];
  }

  /** The demo's two removals of observer 2: from MQTT, which does not hold
      it, and then from DATA, which does. */
  method RemoveDemo(subject: Subject, o2: Observer, o3: Observer, o7: Observer, o8: Observer, log: seq<Observer>)
    returns (first: RemoveReport, second: RemoveReport)
    requires o2 != o3 && o2 != o7 && o2 != o8
    requires subject.observers == map[DATA := [o8, o7, o2], MQTT := [o3], LOG := log]
    modifies subject
    ensures first == NotFoundInEvent && second == Removed
    ensures subject.observers == map[DATA := [o8, o7], MQTT := [o3], LOG := log]
  {
    var handle: Observer? := o2;
    handle, first := subject.RemoveObserver(MQTT, o2);
    assert handle == o2;
    handle, second := subject.RemoveObserver(DATA, o2);
    assert handle == null;
    RemoveFirstAt([o8, o7, o2], o2, 2);
    ThreeLists(subject.observers, DATA, [o8, o7], MQTT, [o3], LOG, log);
  }

  /** The demo: seven subscriptions over three topics, a notification of
      everyone, a removal from a topic that does not hold the observer and
      one from a topic that does, and a notification of MQTT alone. */
  method DiffTopicScenario()
    returns (everyone: seq<string>, first: RemoveReport, second: RemoveReport, mqtt: seq<string>)
    ensures everyone == ["Observer8", "Observer7", "Observer2", "Observer3", "Observer6", "Observer5", "Observer1"]
    ensures first == NotFoundInEvent && second == Removed
    ensures mqtt == ["Observer3"]
  {
    var observer1 := new Observer("Observer1");
    var observer2 := new Observer("Observer2");
    var observer3 := new Observer("Observer3");
    var observer5 := new Observer("Observer5");
    var observer6 := new Observer("Observer6");
    var observer7 := new Observer("Observer7");
    var observer8 := new Observer("Observer8");

    var subject := new Subject();
    RegisterDemo(subject, observer1, observer2, observer3, observer5, observer6, observer7, observer8);

    var all := subject.Notify(ALL);
    NotifiedDemo(subject.observers, observer1, observer2, observer3, observer5, observer6, observer7, observer8);
    everyone := Names(all);

    first, second := RemoveDemo(subject, observer2, observer3, observer7, observer8, [observer6, observer5, observer1]);

    var some := subject.Notify(MQTT);
    NotifyTopic(subject.observers, MQTT);
    assert some == [observer3];
    mqtt := Names(some);
    assert mqtt == [observer3.name];
  }
}
