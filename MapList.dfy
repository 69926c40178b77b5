/** The free-function variant of the topic registry: a map from an integer
    topic to a singly-linked list of observer names. The registry is an
    object passed by reference; `addObservers`, `printListObservers` and
    `searchOservers` are methods over it, and the first-match removal that
    the demo performs on its MQTT list is `EraseFirstObserver`. */
module MapList {
  import opened Lists
  import opened OrderedKeys
  import opened KeyedLists

  // The values of `Topics`.
  const LOG: int := 0
  const DATA: int := 1
  const MQTT: int := 2

  datatype Option<T> = None | Some(value: T)

  class MapLists {
    var lists: map<int, seq<string>>

    constructor ()
      ensures lists == map[]
    {
      lists := map[];
    }
  }

  /** `mapLists[event].push_front(observer)`: `operator[]` creates the key
      with an empty list when it is missing. */
  method AddObservers(mapLists: MapLists, event: int, observer: string)
    modifies mapLists
    ensures mapLists.lists == Prepend(old(mapLists.lists), event, observer)
  {
    if event !in mapLists.lists {
      mapLists.lists := mapLists.lists[event := []];
    }
    mapLists.lists := mapLists.lists[event := [observer] + mapLists.lists[event]];
  }

  /** The values printed for `event`, read through `operator[]`: a missing
      key is inserted with an empty list, and nothing is printed for it. */
  method PrintListObservers(mapLists: MapLists, event: int) returns (printed: seq<string>)
    modifies mapLists
    ensures event !in old(mapLists.lists) ==> mapLists.lists == old(mapLists.lists)[event := []] && printed == []
    ensures event in old(mapLists.lists) ==> mapLists.lists == old(mapLists.lists) && printed == old(mapLists.lists)[event]
  {
    if event !in mapLists.lists {
      mapLists.lists := mapLists.lists[event := []];
    }
    printed := mapLists.lists[event];
  }

  /** The values found for `event` through `find`, which never inserts;
      `None` is the "Not found" report. */
  method SearchObservers(mapLists: MapLists, event: int) returns (found: Option<seq<string>>)
    ensures found.None? <==> event !in mapLists.lists
    ensures found.Some? ==> found.value == mapLists.lists[event]
  {
    if event !in mapLists.lists {
      return None;
    }
    return Some(mapLists.lists[event]);
  }

  /** The keys printed by the range-for over the map: each once, ascending. */
  method KeysInOrder(mapLists: MapLists) returns (keys: seq<int>)
    ensures StrictlyIncreasing(keys)
    ensures forall k :: k in keys <==> k in mapLists.lists
    ensures |keys| == |mapLists.lists|
  {
    keys := SortedKeys(mapLists.lists.Keys);
  }

  /** The demo's removal: look the topic up with `find` ("Not found" when it
      is missing) and then run the before/current cursor walk that erases
      the first entry equal to `observer` and stops. */
  method EraseFirstObserver(mapLists: MapLists, event: int, observer: string) returns (topicFound: bool)
    modifies mapLists
    ensures topicFound <==> event in old(mapLists.lists)
    ensures mapLists.lists == EraseFirst(old(mapLists.lists), event, observer)
  {
    if event !in mapLists.lists {
      return false;
    }
    var list, _ := EraseFirstMatch(mapLists.lists[event], observer);
    mapLists.lists := mapLists.lists[event := list];
    return true;
  }

  /** The seven additions of the demo. */
  method AddDemo(mapLists: MapLists)
    requires mapLists.lists == map[]
    modifies mapLists
    ensures mapLists.lists == map[LOG := ["observer2", "observer1"],
                                  DATA := ["observer5", "observer4"],
                                  MQTT := ["observer8", "observer7", "observer6"]]
  {
    AddObservers(mapLists, LOG, "observer1");
    AddObservers(mapLists, LOG, "observer2");
    AddObservers(mapLists, DATA, "observer4");
    AddObservers(mapLists, DATA, "observer5");
    AddObservers(mapLists, MQTT, "observer6");
    AddObservers(mapLists, MQTT, "observer7");
    AddObservers(mapLists, MQTT, "observer8");
    ThreeLists(mapLists.lists, LOG, ["observer2", "observer1"], DATA, ["observer5", "observer4"],
               MQTT, ["observer8", "observer7", "observer6"]);
  }

  /** The three searches of the demo over the map the additions built. */
  method SearchDemo(mapLists: MapLists) returns (searches: seq<Option<seq<string>>>)
    requires mapLists.lists == map[LOG := ["observer2", "observer1"],
                                  DATA := ["observer5", "observer4"],
                                  MQTT := ["observer8", "observer7", "observer6"]]
    ensures searches == [Some(["observer2", "observer1"]), Some(["observer5", "observer4"]),
                         Some(["observer8", "observer7", "observer6"])]
  {
    var log := SearchObservers(mapLists, LOG);
    var data := SearchObservers(mapLists, DATA);
    var mqtt := SearchObservers(mapLists, MQTT);
    searches := [log, data, mqtt];
  }

  /** The demo's three prints, one per topic, over the map the additions
      built; every topic is present, so none is inserted. */
  method PrintDemo(mapLists: MapLists) returns (printed: seq<seq<string>>)
    requires mapLists.lists == map[LOG := ["observer2", "observer1"],
                                  DATA := ["observer5", "observer4"],
                                  MQTT := ["observer8", "observer7", "observer6"]]
    modifies mapLists
    ensures mapLists.lists == map[LOG := ["observer2", "observer1"],
                                 DATA := ["observer5", "observer4"],
                                 MQTT := ["observer8", "observer7", "observer6"]]
    ensures printed == [["observer2", "observer1"], ["observer5", "observer4"],
                        ["observer8", "observer7", "observer6"]]
  {
    var log := PrintListObservers(mapLists, LOG);
    var data := PrintListObservers(mapLists, DATA);
    var mqtt := PrintListObservers(mapLists, MQTT);
    printed := [log, data, mqtt];
  }

  /** The demo's removal of the first "observer6" from MQTT, and the print
      of MQTT that follows it. */
  method RemoveDemo(mapLists: MapLists) returns (mqttAfter: seq<string>)
    requires mapLists.lists == map[LOG := ["observer2", "observer1"],
                                  DATA := ["observer5", "observer4"],
                                  MQTT := ["observer8", "observer7", "observer6"]]
    modifies mapLists
    ensures mqttAfter == ["observer8", "observer7"]
  {
    var _ := EraseFirstObserver(mapLists, MQTT, "observer6");
    assert "observer8"[8] != "observer6"[8] && "observer7"[8] != "observer6"[8];
    RemoveFirstAt(["observer8", "observer7", "observer6"], "observer6", 2);
    mqttAfter := PrintListObservers(mapLists, MQTT);
  }

  /** The demo: after the additions the map holds three keys, listed in the
      order LOG, DATA, MQTT; the three lists are printed and all three
      topics are found by the search; the MQTT list then loses its first
      "observer6" and nothing else. */
  method SimpleMapListScenario()
    returns (size: nat, keys: seq<int>, printed: seq<seq<string>>,
             searches: seq<Option<seq<string>>>, mqttAfter: seq<string>)
    ensures size == 3
    ensures keys == [LOG, DATA, MQTT]
    ensures printed == [["observer2", "observer1"], ["observer5", "observer4"],
                        ["observer8", "observer7", "observer6"]]
    ensures searches == [Some(["observer2", "observer1"]), Some(["observer5", "observer4"]),
                         Some(["observer8", "observer7", "observer6"])]
    ensures mqttAfter == ["observer8", "observer7"]
  {
    var mapLists := new MapLists();
    AddDemo(mapLists);
    size := |mapLists.lists|;
    assert mapLists.lists.Keys == {0, 1, 2};
    keys := KeysInOrder(mapLists);
    AscendingOfThree(keys);
    printed := PrintDemo(mapLists);
    searches := SearchDemo(mapLists);
    mqttAfter := RemoveDemo(mapLists);
  }
}
