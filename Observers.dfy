/** The observer objects the subjects hold. An observer is compared by
    identity (the pointer inside its smart pointer), so it is a class: two
    observers with the same name are still different observers. Its
    `notify` prints a greeting with its name; the subjects return the
    observers they notify, in order, instead of printing. */
module Observers {

  class Observer {
    const name: string

    constructor (name: string)
      ensures this.name == name
    {
      this.name := name;
    }

    /** A copy made by the copy constructor: the same name, a new object. */
    constructor Copy(original: Observer)
      ensures name == original.name
    {
      name := original.name;
    }
  }

  /** The range-for over one list: every entry's `notify` is called, from
      the head to the tail, and the entries are returned in that order. */
  method NotifyEach(list: seq<Observer>) returns (notified: seq<Observer>)
    ensures notified == list
  {
    notified := [];
    for j := 0 to |list|
      invariant notified == list[..j]
    {
      assert list[..j + 1] == list[..j] + [list[j]];
      notified := notified + [list[j]];
    }
  }

  /** The names of the notified observers, one per notification; the demos
      state whom they greet through it. */
  function Names(s: seq<Observer>): (r: seq<string>)
    ensures |r| == |s|
    ensures forall i :: 0 <= i < |s| ==> r[i] == s[i].name
  {
    seq(|s|, i requires 0 <= i < |s| => s[i].name)
  }
}
