/** The simplest subject: one singly-linked list of shared observer
    handles. Adding pushes to the head, removing drops every entry equal to
    the handle (`forward_list::remove`) and then clears the caller's handle,
    and notifying walks the list from the head. Neither adding nor removing
    looks through the handle, so a null handle can be stored and removed. */
module SimpleObserver {
  import opened Observers
  import opened Lists

  class Subject {
    var observers: seq<Observer?>

    constructor ()
      ensures observers == []
    {
      observers := [];
    }

    method AddObserver(observer: Observer?)
      modifies this
      ensures observers == [observer] + old(observers)
    {
      observers := [observer] + observers;
    }

    /** Removes every entry identical to `observer`; the caller's handle,
        passed by reference, comes back cleared, and the removal is reported
        whether or not anything was removed. */
    method RemoveObserver(observer: Observer?) returns (handle: Observer?, report: string)
      modifies this
      ensures observers == RemoveAll(old(observers), observer)
      ensures handle == null
      ensures report == "Observer removed from subscription."
    {
      observers := RemoveAll(observers, observer);
      handle := null;
      report := "Observer removed from subscription.";
    }

    /** Calls `notify` on every entry from the head, so every entry must be
        a live observer. */
    method Notify() returns (notified: seq<Observer>)
      requires null !in observers
      ensures notified == observers
    {
      notified := NotifyEach(observers);
    }
  }

  /** The demo's two removals, of observers 2 and 3, from the list the four
      additions built. */
  method RemoveDemo(subject: Subject, o1: Observer, o2: Observer, o3: Observer, o4: Observer)
    returns (reports: seq<string>)
    requires subject.observers == [o4, o3, o2, o1]
    requires o2 != o1 && o2 != o3 && o2 != o4 && o3 != o1 && o3 != o4
    modifies subject
    ensures subject.observers == [o4, o1]
    ensures reports == ["Observer removed from subscription.", "Observer removed from subscription."]
  {
    assert subject.observers == [o4, o3] + [o2] + [o1];
    RemoveAllSingle<Observer?>([o4, o3], o2, [o1]);
    var handle, report := subject.RemoveObserver(o2);
    assert subject.observers == [o4] + [o3] + [o1];
    RemoveAllSingle<Observer?>([o4], o3, [o1]);
    var second;
    handle, second := subject.RemoveObserver(o3);
    reports := [report, second];
  }

  /** The demo: four observers registered in order are greeted in reverse;
      both removals, of observers 2 and 3, are reported; then 4 and 1 are
      greeted. */
  method SimpleScenario() returns (first: seq<string>, reports: seq<string>, second: seq<string>)
    ensures first == ["Observer4", "Observer3", "Observer2", "Observer1"]
    ensures reports == ["Observer removed from subscription.", "Observer removed from subscription."]
    ensures second == ["Observer4", "Observer1"]
  {
    var observer1 := new Observer("Observer1");
    var observer2 := new Observer("Observer2");
    var observer3 := new Observer("Observer3");
    var observer4 := new Observer("Observer4");

    var subject := new Subject();
    subject.AddObserver(observer1);
    subject.AddObserver(observer2);
    subject.AddObserver(observer3);
    subject.AddObserver(observer4);
    assert subject.observers == [observer4, observer3, observer2, observer1];

    var notified := subject.Notify();
    first := Names(notified);
    assert first == [observer4.name, observer3.name, observer2.name, observer1.name];

    reports := RemoveDemo(subject, observer1, observer2, observer3, observer4);
    notified := subject.Notify();
    second := Names(notified);
    assert second == [observer4.name, observer1.name];
  }
}
