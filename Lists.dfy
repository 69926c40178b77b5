/** The two ways the observer lists lose entries.

    - `RemoveAll` is what `std::forward_list::remove` does: every entry equal
      to the argument goes, the others keep their order.
    - `RemoveFirst` is what the hand-written cursor walk does: a "before"
      cursor trails the current one, and the first equal entry is unlinked
      with `erase_after` before the loop breaks. `EraseFirstMatch` is that
      walk, proved against `RemoveFirst`.
 */
module Lists {

  /** `s` without any entry equal to `x`; nothing else moves. */
  function RemoveAll<T(==)>(s: seq<T>, x: T): (r: seq<T>)
    ensures x !in r
    ensures x !in s ==> r == s
  {
    if s == [] then []
    else if s[0] == x then RemoveAll(s[1..], x)
    else [s[0]] + RemoveAll(s[1..], x)
  }

  /** Every copy of `x` goes and every other entry keeps its count. */
  lemma {:induction false} RemoveAllCount<T>(s: seq<T>, x: T)
    ensures multiset(RemoveAll(s, x)) == multiset(s)[x := 0]
  {
    if s != [] {
      assert s == [s[0]] + s[1..];
      RemoveAllCount(s[1..], x);
    }
  }

  /** Removing all copies of `x` works piecewise, so the survivors keep their
      relative order. */
  lemma {:induction false} RemoveAllConcat<T>(a: seq<T>, b: seq<T>, x: T)
    ensures RemoveAll(a + b, x) == RemoveAll(a, x) + RemoveAll(b, x)
  {
    if a == [] {
      assert a + b == b;
    } else {
      assert (a + b)[1..] == a[1..] + b;
      RemoveAllConcat(a[1..], b, x);
    }
  }

  /** Removing an entry that occurs once takes out just that entry: what
      stands before and after it is joined up in order. */
  lemma {:induction false} RemoveAllSingle<T>(a: seq<T>, x: T, b: seq<T>)
    requires x !in a && x !in b
    ensures RemoveAll(a + [x] + b, x) == a + b
  {
    RemoveAllConcat(a + [x], b, x);
    RemoveAllConcat(a, [x], x);
    assert RemoveAll([x], x) == RemoveAll([x][1..], x) == [];
  }

  /** `s` without its first entry equal to `x`; unchanged when there is none. */
  function RemoveFirst<T(==)>(s: seq<T>, x: T): (r: seq<T>)
    ensures x !in s ==> r == s
    ensures |r| == if x in s then |s| - 1 else |s|
  {
    if s == [] then []
    else
      assert s == [s[0]] + s[1..];
      if s[0] == x then s[1..]
      else [s[0]] + RemoveFirst(s[1..], x)
  }

  /** Exactly one copy of `x` goes when there is one. */
  lemma {:induction false} RemoveFirstCount<T>(s: seq<T>, x: T)
    ensures x in s ==> multiset(RemoveFirst(s, x)) == multiset(s) - multiset{x}
  {
    if s != [] {
      assert s == [s[0]] + s[1..];
      RemoveFirstCount(s[1..], x);
    }
  }

  /** The entry removed is the first occurrence: everything before it and
      everything after it stays, in order. */
  lemma {:induction false} RemoveFirstAt<T>(s: seq<T>, x: T, i: nat)
    requires i < |s| && s[i] == x && x !in s[..i]
    ensures RemoveFirst(s, x) == s[..i] + s[i + 1..]
  {
    if i > 0 {
      var t := s[1..];
      assert s[0] in s[..i];
      assert t[..i - 1] == s[1..i];
      assert x !in t[..i - 1];
      RemoveFirstAt(t, x, i - 1);
      assert RemoveFirst(s, x) == [s[0]] + RemoveFirst(t, x);
      assert t[i..] == s[i + 1..];
      assert s[..i] == [s[0]] + s[1..i];
    }
  }

  /** Only one copy goes: an entry present twice is still present after one
      removal. */
  lemma RemoveFirstKeepsDuplicate<T>(s: seq<T>, x: T)
    requires multiset(s)[x] >= 2
    ensures x in RemoveFirst(s, x)
  {
    assert x in multiset(s);
    RemoveFirstCount(s, x);
    assert multiset(RemoveFirst(s, x))[x] >= 1;
  }

  /** The cursor walk: `before` starts at `before_begin` (index -1) and
      trails `current`; on the first match the entry after `before` is
      erased and the walk stops. `found` is the source's flag. */
  method EraseFirstMatch<T(==)>(s: seq<T>, x: T) returns (r: seq<T>, found: bool)
    ensures found <==> x in s
    ensures r == RemoveFirst(s, x)
  {
    r, found := s, false;
    var before := -1;
    var current := 0;
    while current < |s|
      invariant 0 <= current <= |s| && before == current - 1
      invariant x !in s[..current]
      invariant !found && r == s
    {
      if s[current] == x {
        found := true;
        r := s[..before + 1] + s[before + 2..];
        RemoveFirstAt(s, x, current);
        break;
      }
      assert s[..current + 1] == s[..current] + [s[current]];
      before := current;
      current := current + 1;
    }
    assert s[..current] == s || found;
  }
}
