/** The subject that owns its observers: one singly-linked list of unique
    handles. Adding takes the handle over and pushes it to the head;
    removing drops every entry equal to the handle it is given and reports
    "Observer removed" whatever happened; notifying walks the list from
    the head. The entries are copies made on the heap, never the observers
    the caller declared. */
module OwningObserver {
  import opened Observers
  import opened Lists

  class Subject {
    var observers: seq<Observer?>

    constructor ()
      ensures observers == []
    {
      observers := [];
    }

    /** The subject now owns `observer`; the caller's handle is moved from. */
    method AddObserver(observer: Observer?)
      modifies this
      ensures observers == [observer] + old(observers)
    {
      observers := [observer] + observers;
    }

    method RemoveObserver(observer: Observer?) returns (report: string)
      modifies this
      ensures observers == RemoveAll(old(observers), observer)
      ensures report == "Observer removed"
    {
      observers := RemoveAll(observers, observer);
      report := "Observer removed";
    }

    /** Calls `notify` on every entry from the head, so every entry must be
        a live observer. */
    method Notify() returns (notified: seq<Observer>)
      requires null !in observers
      ensures notified == observers
    {
      notified := NotifyEach(observers);
    }
  }

  /** The demo: copies of four declared observers are registered, the copy
      of observer 2 through a handle `ptr` that is moved into the subject.
      The later removal is handed the moved-from, null, `ptr`, so nothing is
      removed, though the removal is reported, and all four are greeted
      again. */
  method OwningScenario()
    returns (declared: seq<Observer>, stored: seq<Observer?>, first: seq<string>, report: string,
             second: seq<string>)
    ensures forall i, j :: 0 <= i < |stored| && 0 <= j < |declared| ==> stored[i] != declared[j]
    ensures first == ["Observer4", "Observer3", "Observer2", "Observer1"]
    ensures report == "Observer removed"
    ensures second == first
  {
    var observer1 := new Observer("Observer1");
    var observer2 := new Observer("Observer2");
    var observer3 := new Observer("Observer3");
    var observer4 := new Observer("Observer4");
    declared := [observer1, observer2, observer3, observer4];

    var ptr: Observer? := new Observer.Copy(observer2);
    var subject := new Subject();
    var copy1 := new Observer.Copy(observer1);
    subject.AddObserver(copy1);
    subject.AddObserver(ptr);
    ghost var copy2 := ptr;
    ptr := null;
    var copy3 := new Observer.Copy(observer3);
    subject.AddObserver(copy3);
    var copy4 := new Observer.Copy(observer4);
    subject.AddObserver(copy4);
    assert subject.observers == [copy4, copy3, copy2, copy1];

    var notified := subject.Notify();
    first := Names(notified);
    assert first == [copy4.name, copy3.name, copy2.name, copy1.name];

    report := subject.RemoveObserver(ptr);
    assert subject.observers == [copy4, copy3, copy2, copy1];
    stored := subject.observers;

    notified := subject.Notify();
    second := Names(notified);
  }
}
