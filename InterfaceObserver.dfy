/** The subject behind an interface: one singly-linked list of shared
    observer handles. Adding reads the observer's name and pushes it to the
    head; removing drops every entry equal to the handle, reports the
    removal by the observer's name whether or not anything was removed, and
    clears the caller's handle; notifying walks the list from the head. */
module InterfaceObserver {
  import opened Observers
  import opened Lists

  class Subject {
    var observers: seq<Observer>

    constructor ()
      ensures observers == []
    {
      observers := [];
    }

    /** The handle is dereferenced for its name, so it is not null. */
    method AddObserver(observer: Observer)
      modifies this
      ensures observers == [observer] + old(observers)
    {
      observers := [observer] + observers;
    }

    /** The handle is dereferenced for the report after the removal, so it
        is not null; it comes back cleared. */
    method RemoveObserver(observer: Observer) returns (handle: Observer?, report: string)
      modifies this
      ensures observers == RemoveAll(old(observers), observer)
      ensures report == observer.name + " removed from subscription."
      ensures handle == null
    {
      observers := RemoveAll(observers, observer);
      report := observer.name + " removed from subscription.";
      handle := null;
    }

    method Notify() returns (notified: seq<Observer>)
      ensures notified == observers
    {
      notified := NotifyEach(observers);
    }
  }

  /** The demo's removal of observer 2 from the list the three additions
      built. */
  method RemoveDemo(subject: Subject, o1: Observer, o2: Observer, o3: Observer) returns (report: string)
    requires subject.observers == [o3, o2, o1]
    requires o2 != o1 && o2 != o3
    modifies subject
    ensures subject.observers == [o3, o1]
    ensures report == o2.name + " removed from subscription."
  {
    assert subject.observers == [o3] + [o2] + [o1];
    RemoveAllSingle([o3], o2, [o1]);
    var handle;
    handle, report := subject.RemoveObserver(o2);
  }

  /** The demo: three observers registered in order are greeted in
      reverse; the removal of observer 2 is reported by name; then 3 and 1
      are greeted. */
  method InterfaceScenario() returns (first: seq<string>, report: string, second: seq<string>)
    ensures first == ["Observer3", "Observer2", "Observer1"]
    ensures report == "Observer2 removed from subscription."
    ensures second == ["Observer3", "Observer1"]
  {
    var observer1 := new Observer("Observer1");
    var observer2 := new Observer("Observer2");
    var observer3 := new Observer("Observer3");

    var subject := new Subject();
    subject.AddObserver(observer1);
    subject.AddObserver(observer2);
    subject.AddObserver(observer3);
    assert subject.observers == [observer3, observer2, observer1];

    var notified := subject.Notify();
    first := Names(notified);
    assert first == [observer3.name, observer2.name, observer1.name];

    report := RemoveDemo(subject, observer1, observer2, observer3);

    notified := subject.Notify();
    second := Names(notified);
    assert second == [observer3.name, observer1.name];
  }
}
