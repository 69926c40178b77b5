/** A map from integer keys to lists, as both topic registries hold it, with the two
    updates they make: push to the head of a key's list (creating the list
    first when the key is missing) and erase the first equal entry of an
    existing key's list. */
module KeyedLists {
  import opened Lists

  /** The list stored under `key`, or the empty list when there is none. */
  function ListAt<V>(m: map<int, seq<V>>, key: int): (r: seq<V>)
  {
    if key in m then m[key] else []
  }

  /** `m[key].push_front(v)`, the key created first when it is missing. */
  function Prepend<V>(m: map<int, seq<V>>, key: int, v: V): (r: map<int, seq<V>>)
    ensures r.Keys == m.Keys + {key}
    ensures forall k :: ListAt(r, k) == if k == key then [v] + ListAt(m, key) else ListAt(m, k)
  {
    m[key := [v] + ListAt(m, key)]
  }

  /** The first entry equal to `v` erased from the list under `key`; a
      missing key is not created. */
  function EraseFirst<V(==)>(m: map<int, seq<V>>, key: int, v: V): (r: map<int, seq<V>>)
    ensures r.Keys == m.Keys
    ensures forall k :: ListAt(r, k) == if k == key then RemoveFirst(ListAt(m, key), v) else ListAt(m, k)
  {
    if key in m then m[key := RemoveFirst(m[key], v)] else m
  }

  /** A map over three keys is determined by their three lists. */
  lemma ThreeLists<V>(m: map<int, seq<V>>, k1: int, a: seq<V>, k2: int, b: seq<V>, k3: int, c: seq<V>)
    requires m.Keys == {k1, k2, k3}
    requires ListAt(m, k1) == a && ListAt(m, k2) == b && ListAt(m, k3) == c
    ensures m == map[k1 := a, k2 := b, k3 := c]
  {
  }
}
