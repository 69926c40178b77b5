/** The key order of `std::map<int, ...>`: a range-for over the map visits
    the keys once each, ascending. */
module OrderedKeys {

  predicate StrictlyIncreasing(s: seq<int>)
  {
    forall i, j :: 0 <= i < j < |s| ==> s[i] < s[j]
  }

  /** Every non-empty finite set of integers has a least element. */
  lemma {:induction false} HasMinimum(keys: set<int>)
    requires keys != {}
    ensures exists k :: k in keys && forall j :: j in keys ==> k <= j
  {
    if forall y :: y !in keys {
      assert false;
    }
    var x :| x in keys;
    var rest := keys - {x};
    if rest == {} {
      assert keys == {x};
      assert forall j :: j in keys ==> x <= j;
    } else {
      HasMinimum(rest);
      var m :| m in rest && forall j :: j in rest ==> m <= j;
      var k := if x <= m then x else m;
      forall j | j in keys
        ensures k <= j
      {
        if j != x {
          assert j in rest;
        }
      }
      assert k in keys;
    }
  }

  /** The keys of a map in its iteration order: least key first. */
  function SortedKeys(keys: set<int>): (r: seq<int>)
    ensures StrictlyIncreasing(r)
    ensures forall k :: k in keys <==> k in r
    ensures |r| == |keys|
    decreases keys
  {
    if keys == {} then []
    else
      HasMinimum(keys);
      var k :| k in keys && forall j :: j in keys ==> k <= j;
      [k] + SortedKeys(keys - {k})
  }

  /** The only ascending listing of the keys 0, 1 and 2, which both demos
      use. */
  lemma AscendingOfThree(r: seq<int>)
    requires StrictlyIncreasing(r)
    requires forall k :: k in r <==> k in {0, 1, 2}
    requires |r| == 3
    ensures r == [0, 1, 2]
  {
    assert r[0] in r && r[1] in r && r[2] in r;
  }

  lemma SortedKeysOfThree()
    ensures SortedKeys({0, 1, 2}) == [0, 1, 2]
  {
    AscendingOfThree(SortedKeys({0, 1, 2}));
  }
}
