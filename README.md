# Observer and Strategy, verified

A model of the C++ demos of two design patterns from *Head First Design
Patterns*, with proofs about the model.

**Observer.** A subject keeps a registry of observers and calls each one's
`notify`. There are five variants.

- Three use a single list: shared handles (`01_Simple_Observer`), shared
  handles behind an interface (`02_Simple_Observer_with_interface`), and
  owning unique handles (`01_Simpple_Observer`).
- The fourth (`03_Simple_Observer_diff_topic`) partitions its observers by
  message type. A `std::map` sends each topic to a `std::forward_list`.
  Notifying one topic reaches only that topic's list; notifying `ALL`
  reaches every list, in ascending key order.
- The fifth is the free-function study of that map of lists
  (`simple_map_list`), keyed by topic and holding observer names.

An observer is a Dafny `class` with a constant name. Handles are references
to it, so two observers with the same name are still distinct, as two
`shared_ptr`s to different objects are. Every subject is a `class` whose
field holds its registry:

- a `seq` for a `forward_list`;
- a `map<int, seq<…>>` for a map of lists.

Each registry operation is a method whose `ensures` states the new registry
as a function of the old one. Two removals are modelled:

- `Lists.RemoveAll` is `forward_list::remove`: every equal entry goes.
- `Lists.RemoveFirst` is the hand-written `before_begin`/`erase_after` cursor
  walk: only the first equal entry goes. `Lists.EraseFirstMatch` is that
  walk, with its `found` flag and its `break`, proved against
  `RemoveFirst`.

Map iteration order is `OrderedKeys.SortedKeys`: the keys once each,
strictly ascending. The observers one `notify(event)` reaches are given by
the specification function `TopicObserver.Notified`. Lemmas about it show
that:

- a concrete topic reaches exactly its own list, head first;
- `ALL` reaches every list in key order, once per stored entry;
- adding or removing changes only the affected topic.

Output is returned instead of printed. Each demo's `main` is a scenario
method whose `ensures` state, in order:

- the names of the observers each notification greets;
- the removal reports (strings, or for the topic subject a `RemoveReport`
  value);
- for the map-of-lists study, the key count, the keys, and every list
  printed or found.

For the Strategy demos they state every line a behaviour prints and every
"Changing weapon" notice.

**Strategy.** A duck holds a quacking and a flying behaviour, and a game
character holds a weapon. Each behaviour family is a closed set of
stateless variants with one `const` operation that prints a fixed line.
Such a family is a `datatype` with a pure function for its line. Because
the functions are pure, invoking a behaviour changes no state. Ducks and
characters are classes whose setters replace one field and leave the other
unchanged. The knife prints the sword's line, and this quirk is kept:
`Weapons.UseWeaponDistinguishes` states exactly which weapons print the
same line.

## Model

| member | source | states |
|---|---|---|
| `Observers.Observer.constructor` | 02_Observer/03_Simple_Observer_diff_topic/Observer.cpp:54-58 | a new observer holds the given name |
| `Observers.Observer.Copy` | 02_Observer/01_Simpple_Observer/Observer.cpp:52-58 | the implicit copy constructor makes a new object with the original's name |
| `Observers.NotifyEach` | 02_Observer/03_Simple_Observer_diff_topic/Observer.cpp:190-192 | the range-for over one list notifies exactly the list's entries, head to tail |
| `Lists.RemoveAll` | 02_Observer/01_Simple_Observer/Observer.cpp:54 | after `remove(x)` no entry equals `x`; a list without `x` is unchanged |
| `Lists.RemoveAllCount` | 02_Observer/02_Simple_Observer_with_interface/Observer.cpp:78 | every copy of `x` goes and every other entry keeps its multiplicity |
| `Lists.RemoveAllConcat` | 02_Observer/01_Simple_Observer/Observer.cpp:54 | removal works piecewise over a concatenation, so survivors keep their order |
| `Lists.RemoveAllSingle` | 02_Observer/01_Simple_Observer/Observer.cpp:89-90 | removing an entry that occurs once joins what stood before and after it |
| `Lists.RemoveFirst` | 02_Observer/03_Simple_Observer_diff_topic/Observer.cpp:153-174 | the first-match removal shortens the list by one exactly when `x` occurs, and otherwise leaves it unchanged |
| `Lists.RemoveFirstCount` | 02_Observer/03_Simple_Observer_diff_topic/Observer.cpp:157-171 | when `x` occurs, exactly one copy of it is removed and nothing else |
| `Lists.RemoveFirstAt` | 02_Observer/03_Simple_Observer_diff_topic/Observer.cpp:157-174 | the entry removed is the first occurrence; the prefix before it and the suffix after it stay in order |
| `Lists.RemoveFirstKeepsDuplicate` | 02_Observer/03_Simple_Observer_diff_topic/Observer.cpp:170 | because the walk breaks after one erase, an observer registered twice stays registered |
| `Lists.EraseFirstMatch` | 02_Observer/03_Simple_Observer_diff_topic/Observer.cpp:153-174 | the cursor loop sets `found` exactly when `x` occurs, and leaves `RemoveFirst(s, x)` |
| `OrderedKeys.HasMinimum` | 02_Observer/03_Simple_Observer_diff_topic/Observer.cpp:186 | a non-empty key set has a least key, the one a map visits first |
| `OrderedKeys.SortedKeys` | 02_Observer/03_Simple_Observer_diff_topic/Observer.cpp:186 | the map's keys in iteration order: each key exactly once, strictly ascending |
| `OrderedKeys.AscendingOfThree` | 02_Observer/03_Simple_Observer_diff_topic/simple_map_list/main.cpp:104-106 | the only ascending listing of keys 0, 1 and 2 is `[0, 1, 2]` |
| `OrderedKeys.SortedKeysOfThree` | 02_Observer/03_Simple_Observer_diff_topic/Observer.cpp:114-117 | with DATA, MQTT and LOG present, the map is walked in that order |
| `KeyedLists.Prepend` | 02_Observer/03_Simple_Observer_diff_topic/Observer.cpp:124-133 | the topic is created when missing and gets the observer at its head; every other topic's list is unchanged |
| `KeyedLists.EraseFirst` | 02_Observer/03_Simple_Observer_diff_topic/Observer.cpp:144-174 | no topic is created or dropped; the named topic loses its first match; the others are unchanged |
| `KeyedLists.ThreeLists` | 02_Observer/03_Simple_Observer_diff_topic/Observer.cpp:86-90 | a map with three topics is determined by their three lists |
| `TopicObserver.CollectStep` | 02_Observer/03_Simple_Observer_diff_topic/Observer.cpp:186-194 | one more iteration of the outer loop appends the current topic's list exactly when it matches |
| `TopicObserver.CollectOne` | 02_Observer/03_Simple_Observer_diff_topic/Observer.cpp:188 | over distinct keys, a concrete message type matches only its own key |
| `TopicObserver.CollectAll` | 02_Observer/03_Simple_Observer_diff_topic/Observer.cpp:188 | `ALL` matches every key |
| `TopicObserver.FlattenHas` | 02_Observer/03_Simple_Observer_diff_topic/Observer.cpp:186-194 | an observer is reached when walking all lists exactly when one of them holds it |
| `TopicObserver.FlattenLength` | 02_Observer/03_Simple_Observer_diff_topic/Observer.cpp:190-192 | walking all lists notifies once per stored entry |
| `TopicObserver.NotifyTopic` | 02_Observer/03_Simple_Observer_diff_topic/Observer.cpp:184-195 | `notify(t)` for a concrete topic reaches exactly topic `t`'s list, head first, and nobody when `t` is absent |
| `TopicObserver.NotifyAll` | 02_Observer/03_Simple_Observer_diff_topic/Observer.cpp:184-195 | `notify(ALL)` reaches every list in ascending key order, once per stored entry |
| `TopicObserver.NotifyAllReaches` | 02_Observer/03_Simple_Observer_diff_topic/Observer.cpp:184-195 | `notify(ALL)` reaches an observer iff some topic holds it |
| `TopicObserver.PrependThenNotify` | 02_Observer/03_Simple_Observer_diff_topic/Observer.cpp:120-137 | after adding, the topic notifies the new observer first and then the old list, with no deduplication; other topics are unaffected |
| `TopicObserver.EraseFirstThenNotify` | 02_Observer/03_Simple_Observer_diff_topic/Observer.cpp:140-181 | after removing, the topic reaches the observer once fewer, so not at all if it was registered once; other topics are unaffected |
| `TopicObserver.NotifyAllOfThree` | 02_Observer/03_Simple_Observer_diff_topic/Observer.cpp:114-117 | with the three demo topics, `notify(ALL)` walks DATA, MQTT, LOG |
| `TopicObserver.FlattenOfThree` | 02_Observer/03_Simple_Observer_diff_topic/Observer.cpp:186-194 | walking keys 0, 1, 2 concatenates their three lists |
| `TopicObserver.Subject.constructor` | 02_Observer/03_Simple_Observer_diff_topic/Observer.cpp:90 | a new subject has no topics |
| `TopicObserver.Subject.AddObserver` | 02_Observer/03_Simple_Observer_diff_topic/Observer.cpp:120-137 | the registry becomes `Prepend(old, messageType, observer)` |
| `TopicObserver.Subject.RemoveObserver` | 02_Observer/03_Simple_Observer_diff_topic/Observer.cpp:140-181 | reports "Topic not found" iff the topic is absent, leaving the registry and the handle, which may then be null, untouched; reports a removal iff the topic held the observer, otherwise "not found in event"; on a present topic the registry becomes `EraseFirst(old, …)`; the caller's handle is cleared only on removal |
| `TopicObserver.Subject.Notify` | 02_Observer/03_Simple_Observer_diff_topic/Observer.cpp:184-195 | the nested loop notifies exactly `Notified(observers, event)`, in that order |
| `TopicObserver.RegisterDemo` | 02_Observer/03_Simple_Observer_diff_topic/Observer.cpp:220-226 | the seven registrations leave DATA = 8, 7, 2; MQTT = 3; LOG = 6, 5, 1 |
| `TopicObserver.NotifiedDemo` | 02_Observer/03_Simple_Observer_diff_topic/Observer.cpp:230 | `notify(ALL)` then greets 8, 7, 2, 3, 6, 5, 1 |
| `TopicObserver.RemoveDemo` | 02_Observer/03_Simple_Observer_diff_topic/Observer.cpp:234-235 | removing observer 2 from MQTT reports not found, and from DATA removes it |
| `TopicObserver.DiffTopicScenario` | 02_Observer/03_Simple_Observer_diff_topic/Observer.cpp:198-243 | the demo greets Observer8, 7, 2, 3, 6, 5, 1, reports the two removal outcomes, then greets only Observer3 on MQTT |
| `MapList.MapLists.constructor` | 02_Observer/03_Simple_Observer_diff_topic/simple_map_list/main.cpp:36-37 | the global map starts empty |
| `MapList.AddObservers` | 02_Observer/03_Simple_Observer_diff_topic/simple_map_list/main.cpp:86-90 | `operator[]` creates the topic when missing, and `push_front` puts the name at its head |
| `MapList.PrintListObservers` | 02_Observer/03_Simple_Observer_diff_topic/simple_map_list/main.cpp:45-61 | prints the topic's list; a missing topic is inserted empty and nothing is printed |
| `MapList.SearchObservers` | 02_Observer/03_Simple_Observer_diff_topic/simple_map_list/main.cpp:63-84 | reports "Not found" iff the topic is absent, and otherwise yields its list, without inserting |
| `MapList.KeysInOrder` | 02_Observer/03_Simple_Observer_diff_topic/simple_map_list/main.cpp:103-106 | the printed keys are each key once, ascending, and as many as the map's size |
| `MapList.EraseFirstObserver` | 02_Observer/03_Simple_Observer_diff_topic/simple_map_list/main.cpp:119-137 | the topic lookup reports a missing topic; otherwise the cursor walk erases the first equal name |
| `MapList.AddDemo` | 02_Observer/03_Simple_Observer_diff_topic/simple_map_list/main.cpp:94-100 | the seven additions leave LOG = observer2, observer1; DATA = observer5, observer4; MQTT = observer8, observer7, observer6 |
| `MapList.PrintDemo` | 02_Observer/03_Simple_Observer_diff_topic/simple_map_list/main.cpp:109-111 | the three prints show LOG, DATA and MQTT's lists and insert nothing |
| `MapList.SearchDemo` | 02_Observer/03_Simple_Observer_diff_topic/simple_map_list/main.cpp:114-116 | all three searches find their topic's list |
| `MapList.RemoveDemo` | 02_Observer/03_Simple_Observer_diff_topic/simple_map_list/main.cpp:119-139 | MQTT prints observer8, observer7 after the removal of observer6 |
| `MapList.SimpleMapListScenario` | 02_Observer/03_Simple_Observer_diff_topic/simple_map_list/main.cpp:92-142 | the demo reports 3 keys, prints them as LOG, DATA, MQTT, prints the three lists, finds all three topics, and after the removal prints MQTT as observer8, observer7 |
| `SimpleObserver.Subject.constructor` | 02_Observer/01_Simple_Observer/Observer.cpp:41 | a new subject has an empty list |
| `SimpleObserver.Subject.AddObserver` | 02_Observer/01_Simple_Observer/Observer.cpp:45-49 | the handle goes to the head of the list |
| `SimpleObserver.Subject.RemoveObserver` | 02_Observer/01_Simple_Observer/Observer.cpp:52-58 | every entry equal to the handle goes; the handle is cleared; the removal is reported either way |
| `SimpleObserver.Subject.Notify` | 02_Observer/01_Simple_Observer/Observer.cpp:61-66 | every entry is notified, head first |
| `SimpleObserver.RemoveDemo` | 02_Observer/01_Simple_Observer/Observer.cpp:89-90 | removing observers 2 and 3 from 4, 3, 2, 1 leaves 4, 1, and both removals are reported |
| `SimpleObserver.SimpleScenario` | 02_Observer/01_Simple_Observer/Observer.cpp:69-97 | the demo greets Observer4, 3, 2, 1, reports "Observer removed from subscription." twice, and then greets Observer4, 1 |
| `InterfaceObserver.Subject.constructor` | 02_Observer/02_Simple_Observer_with_interface/Observer.cpp:60 | a new subject has an empty list |
| `InterfaceObserver.Subject.AddObserver` | 02_Observer/02_Simple_Observer_with_interface/Observer.cpp:68-73 | the observer goes to the head of the list |
| `InterfaceObserver.Subject.RemoveObserver` | 02_Observer/02_Simple_Observer_with_interface/Observer.cpp:76-83 | every equal entry goes; "<name> removed from subscription." is reported whether or not one was present; the handle is cleared |
| `InterfaceObserver.Subject.Notify` | 02_Observer/02_Simple_Observer_with_interface/Observer.cpp:86-91 | every entry is notified, head first |
| `InterfaceObserver.RemoveDemo` | 02_Observer/02_Simple_Observer_with_interface/Observer.cpp:124 | removing observer 2 from 3, 2, 1 leaves 3, 1 and reports "<name> removed from subscription." |
| `InterfaceObserver.InterfaceScenario` | 02_Observer/02_Simple_Observer_with_interface/Observer.cpp:96-132 | the demo greets Observer3, 2, 1, reports "Observer2 removed from subscription.", and then greets Observer3, 1 |
| `OwningObserver.Subject.constructor` | 02_Observer/01_Simpple_Observer/Observer.cpp:22 | a new subject has an empty list |
| `OwningObserver.Subject.AddObserver` | 02_Observer/01_Simpple_Observer/Observer.cpp:25-28 | the moved-in handle goes to the head of the list |
| `OwningObserver.Subject.RemoveObserver` | 02_Observer/01_Simpple_Observer/Observer.cpp:30-34 | every equal entry goes, and "Observer removed" is reported either way |
| `OwningObserver.Subject.Notify` | 02_Observer/01_Simpple_Observer/Observer.cpp:36-41 | every entry is notified, head first |
| `OwningObserver.OwningScenario` | 02_Observer/01_Simpple_Observer/Observer.cpp:44-67 | the subject holds copies, never the declared observers; removing through the moved-from handle removes nothing but still reports "Observer removed"; both notifications greet Observer4, 3, 2, 1 |
| `FlyBehaviors.Fly` | 01.0_Strategy_duck/FlyBehavior.h:19-36 | FlyWithWings prints "I'm flying!", FlyNoWay "I can't fly", FlyRocketPowered "I'm flying with a rocket!" |
| `FlyBehaviors.FlyDistinguishes` | 01.0_Strategy_duck/FlyBehavior.h:19-36 | two fly variants print the same line iff they are the same variant |
| `QuackBehaviors.QuackLine` | 01_Ducks/QuackBehavior.h:21-36 | Quack prints "Quack", Squeak "Squeak", Silence "<< Silence >>" |
| `QuackBehaviors.QuackDistinguishes` | 01_Ducks/QuackBehavior.h:21-36 | two quack variants print the same line iff they are the same variant |
| `Weapons.UseWeapon` | 01.1_Strategy_weapon/Weapon.h:15-41 | sword and knife print "I'm fighting with sword!", bow "I'm shooting with bow!", axe "I'm fighting with axe!" |
| `Weapons.UseWeaponDistinguishes` | 01.1_Strategy_weapon/Weapon.h:15-41 | two weapons print the same line iff they are the same weapon or both are blades |
| `Ducks.Duck.constructor` | 01_Ducks/Duck.h:19-24 | the duck holds exactly the two given behaviours |
| `Ducks.Duck.MallardDuck` | 01_Ducks/Duck.h:45-49 | a mallard starts with Quack and FlyWithWings |
| `Ducks.Duck.ModelDuck` | 01_Ducks/Duck.h:56-60 | a model duck starts with Silence and FlyNoWay |
| `Ducks.Duck.PerformQuack` | 01_Ducks/Duck.h:26 | yields the current quack behaviour's line |
| `Ducks.Duck.PerformFly` | 01_Ducks/Duck.h:27 | yields the current fly behaviour's line |
| `Ducks.Duck.SetFlyBehavior` | 01_Ducks/Duck.h:29-32 | replaces the fly behaviour and leaves the quack behaviour unchanged |
| `Ducks.Duck.SetQuackBehavior` | 01_Ducks/Duck.h:34-37 | replaces the quack behaviour and leaves the fly behaviour unchanged |
| `Ducks.DuckScenario` | 01_Ducks/main.cpp:3-20 | the demo prints Quack, I'm flying!, I can't fly, << Silence >>, I can't fly, I'm flying with a rocket! |
| `Characters.Character.constructor` | 01.1_Strategy_weapon/Character.h:13-16 | the character stores exactly the given weapon |
| `Characters.Character.King` | 01.1_Strategy_weapon/Character.h:29-33 | a king starts with the sword |
| `Characters.Character.Queen` | 01.1_Strategy_weapon/Character.h:40-44 | a queen starts with the knife |
| `Characters.Character.Troll` | 01.1_Strategy_weapon/Character.h:50-54 | a troll starts with the axe |
| `Characters.Character.Knight` | 01.1_Strategy_weapon/Character.h:60-64 | a knight starts with bow and arrow |
| `Characters.Character.Fight` | 01.1_Strategy_weapon/Character.h:18 | yields the line of the weapon held now |
| `Characters.Character.SetWeapon` | 01.1_Strategy_weapon/Character.h:20-24 | announces "Changing weapon" and then holds the new weapon, so the last weapon set wins |
| `Characters.Round` | 01.1_Strategy_weapon/main.cpp:7-9 | fight, change weapon, fight: the old weapon's line, the notice, the new weapon's line |
| `Characters.WeaponScenario` | 01.1_Strategy_weapon/main.cpp:4-22 | king: sword then axe; queen: sword's line then bow; troll: axe then the sword's line |

## Left out

- Console text other than the modelled outputs is left out. This covers constructor and destructor lines, the "added to subscription" lines, blank lines, the kind banners printed by the `MallardDuck`/`King`/… constructors, and the topic headers printed by the `switch` in `printListObservers` and `searchOservers`.
- The `display()` methods of ducks and characters are left out: they only print a fixed line and change nothing.
- Reference counting and destruction times of `shared_ptr`/`unique_ptr` are left out. This includes the scoped `observer4` that is created and destroyed before registration. Objects are garbage-collected references here.
- `unique_ptr` move semantics are modelled only for their visible effect: a handle that has been moved from is null. Unique ownership itself is not enforced.
- Virtual dispatch through `BaseObserver`, `BaseSubject`, `FlyBehavior`, `QuackBehavior` and `WeaponType`, and the subclassing of `Duck` and `Character`, are left out. Behaviours are datatype variants, and the duck and character kinds are named constructors.
- The red-black tree behind `std::map` is left out. Only the map's contents and its ascending iteration order are modelled.
- Dereferencing a null handle is undefined behaviour in C++. Where the source always dereferences a handle, the model takes the non-null type `Observer`: the topic subject's add, and the interface subject's add and remove. The topic subject's remove dereferences the handle only when the topic exists, so it takes `Observer?` and requires non-null only in that case. Where the source only stores or compares a handle, the model takes `Observer?`, and `Notify` requires the list to hold no null.
- The process-wide global `mapLists` is an explicit `MapList.MapLists` object passed to each operation.
- The comment in `simple_map_list/main.cpp` promises to remove Observer5, but the code matches `"observer6"`. The model follows the code.
- `01_Ducks/Duck.h` includes a `FlyBehavior.h` from its own directory, which is not part of this model. The fly variants are taken from `01.0_Strategy_duck/FlyBehavior.h`.
