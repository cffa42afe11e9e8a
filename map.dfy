/** useMap (src/hooks/useMap/index.ts): a `Map` state that every action
    replaces by a modified copy. A `Map` is held as its entries in iteration
    order, each key once. */
module MapHook {
  import opened Js

  /** The entries of a `Map`, in insertion order. */
  type Entries<K, V> = seq<(K, V)>

  /** Every key occurs once. */
  predicate UniqueKeys<K(==,!new), V>(m: Entries<K, V>) {
    forall i, j | 0 <= i < j < |m| :: m[i].0 != m[j].0
  }

  /** The keys of a map. */
  function Keys<K(==,!new), V>(m: Entries<K, V>): (ks: seq<K>)
    ensures |ks| == |m| && forall i | 0 <= i < |m| :: ks[i] == m[i].0
  {
    seq(|m|, i requires 0 <= i < |m| => m[i].0)
  }

  /** The position of key `k`, or -1. */
  function Find<K(==,!new), V>(m: Entries<K, V>, k: K): (r: int)
    ensures -1 <= r < |m|
    ensures r >= 0 ==> m[r].0 == k
    ensures r == -1 <==> forall i | 0 <= i < |m| :: m[i].0 != k
    ensures UniqueKeys(m) && r >= 0 ==> forall i | 0 <= i < |m| && i != r :: m[i].0 != k
  {
    if m == [] then -1
    else
      var r := Find(m[..|m| - 1], k);
      if r >= 0 then r else if m[|m| - 1].0 == k then |m| - 1 else -1
  }

  /** `map.get(k)`: `None` stands for `undefined`. */
  function Get<K(==,!new), V>(m: Entries<K, V>, k: K): (r: Option<V>)
    ensures r.None? <==> forall i | 0 <= i < |m| :: m[i].0 != k
    ensures r.Some? ==> (k, r.value) in m
  {
    var i := Find(m, k);
    if i < 0 then None else Some(m[i].1)
  }

  /** In a map, `get` finds the entry that holds the key. */
  lemma GetAt<K(!new), V>(m: Entries<K, V>, k: K, i: nat)
    requires UniqueKeys(m) && i < |m| && m[i].0 == k
    ensures Find(m, k) == i && Get(m, k) == Some(m[i].1)
  {
  }

  lemma OverwriteFacts<K(!new), V>(m: Entries<K, V>, i: nat, k: K, v: V)
    requires UniqueKeys(m) && i < |m| && m[i].0 == k
    ensures UniqueKeys(m[i := (k, v)])
    ensures Get(m[i := (k, v)], k) == Some(v)
    ensures forall j | j != k :: Get(m[i := (k, v)], j) == Get(m, j)
  {
    var r := m[i := (k, v)];
    assert forall q | 0 <= q < |r| :: r[q].0 == m[q].0;
    GetAt(r, k, i);
    forall j | j != k
      ensures Get(r, j) == Get(m, j)
    {
      var p := Find(m, j);
      if p >= 0 {
        GetAt(r, j, p);
      }
    }
  }

  lemma AppendFacts<K(!new), V>(m: Entries<K, V>, k: K, v: V)
    requires UniqueKeys(m) && Find(m, k) < 0
    ensures UniqueKeys(m + [(k, v)])
    ensures Get(m + [(k, v)], k) == Some(v)
    ensures forall j | j != k :: Get(m + [(k, v)], j) == Get(m, j)
  {
    var r := m + [(k, v)];
    GetAt(r, k, |m|);
    forall j | j != k
      ensures Get(r, j) == Get(m, j)
    {
      var p := Find(m, j);
      if p >= 0 {
        GetAt(r, j, p);
      }
    }
  }

  lemma DropFacts<K(!new), V>(m: Entries<K, V>, i: nat, k: K)
    requires UniqueKeys(m) && i < |m| && m[i].0 == k
    ensures UniqueKeys(m[..i] + m[i + 1..])
    ensures Get(m[..i] + m[i + 1..], k) == None
    ensures forall j | j != k :: Get(m[..i] + m[i + 1..], j) == Get(m, j)
  {
    var r := m[..i] + m[i + 1..];
    assert forall p | 0 <= p < |r| :: r[p] == m[if p < i then p else p + 1];
    forall j | j != k
      ensures Get(r, j) == Get(m, j)
    {
      var p := Find(m, j);
      if p >= 0 {
        GetAt(r, j, if p < i then p else p - 1);
      }
    }
  }

  /** `map.set(k, v)`: a present key keeps its place and takes the new
      value; a new key goes last. */
  function Put<K(==,!new), V>(m: Entries<K, V>, k: K, v: V): (r: Entries<K, V>)
    requires UniqueKeys(m)
    ensures UniqueKeys(r)
    ensures Get(r, k) == Some(v)
    ensures forall j | j != k :: Get(r, j) == Get(m, j)
    ensures Find(m, k) >= 0 ==> Keys(r) == Keys(m)
    ensures Find(m, k) < 0 ==> r == m + [(k, v)]
  {
    var i := Find(m, k);
    if i < 0 then
      AppendFacts(m, k, v);
      m + [(k, v)]
    else
      OverwriteFacts(m, i, k, v);
      m[i := (k, v)]
  }

  /** `map.delete(k)`: the other entries keep their order. */
  function Delete<K(==,!new), V>(m: Entries<K, V>, k: K): (r: Entries<K, V>)
    requires UniqueKeys(m)
    ensures UniqueKeys(r)
    ensures Get(r, k) == None
    ensures forall j | j != k :: Get(r, j) == Get(m, j)
    ensures Find(m, k) < 0 ==> r == m
    ensures Find(m, k) >= 0 ==> r == m[..Find(m, k)] + m[Find(m, k) + 1..]
  {
    var i := Find(m, k);
    if i < 0 then m
    else
      DropFacts(m, i, k);
      m[..i] + m[i + 1..]
  }

  /** `new Map(entries)`: the entries set one after another, so a repeated
      key keeps its first place and its last value. */
  function FromEntries<K(==,!new), V>(entries: seq<(K, V)>): (r: Entries<K, V>)
    ensures UniqueKeys(r)
    ensures forall k :: Get(r, k).None? <==> forall i | 0 <= i < |entries| :: entries[i].0 != k
    ensures forall k | Get(r, k).Some? :: (k, Get(r, k).value) in entries
  {
    if entries == [] then []
    else
      var init := entries[..|entries| - 1];
      var e := entries[|entries| - 1];
      assert forall i | 0 <= i < |init| :: init[i] == entries[i];
      Put(FromEntries(init), e.0, e.1)
  }

  /** `const [map] = useState(() => new Map(initialValue))`, also `reset()`. */
  function Init<K(==,!new), V>(initialValue: Option<seq<(K, V)>>): (r: Entries<K, V>)
    ensures UniqueKeys(r)
    ensures initialValue.None? ==> r == []
  {
    FromEntries(initialValue.GetOr([]))
  }

  /** The state after `set(k, v)`: `new Map(prev)` and one `set`. It is
      still a map; a present key keeps its place and a new one goes last. */
  function Set<K(==,!new), V>(prev: Entries<K, V>, k: K, v: V): (r: Entries<K, V>)
    requires UniqueKeys(prev)
    ensures UniqueKeys(r)
    ensures Find(prev, k) >= 0 ==> Keys(r) == Keys(prev)
    ensures Find(prev, k) < 0 ==> r == prev + [(k, v)]
  {
    var copy := FromEntries(prev);
    CopyIsSame(prev);
    assert copy == prev;
    Put(copy, k, v)
  }

  /** The state after `remove(k)`: `new Map(prev)` and one `delete`. The
      copy changes nothing, so this is `delete` on the previous map: still a
      map, the other entries in their order, and an absent key leaves it as
      it was. */
  function Remove<K(==,!new), V>(prev: Entries<K, V>, k: K): (r: Entries<K, V>)
    requires UniqueKeys(prev)
    ensures r == Delete(prev, k)
    ensures Find(prev, k) < 0 ==> r == prev
  {
    var copy := FromEntries(prev);
    CopyIsSame(prev);
    assert copy == prev;
    Delete(copy, k)
  }

  /** `new Map(m)` of a map is the same map. */
  lemma {:induction false} CopyIsSame<K(!new), V>(m: Entries<K, V>)
    requires UniqueKeys(m)
    ensures FromEntries(m) == m
  {
    if m != [] {
      var init := m[..|m| - 1];
      var e := m[|m| - 1];
      assert UniqueKeys(init);
      CopyIsSame(init);
      assert forall i | 0 <= i < |init| :: init[i].0 != e.0;
      assert Find(init, e.0) < 0;
      assert FromEntries(m) == Put(init, e.0, e.1);
      assert init + [e] == m;
    }
  }

  /** After `set(k, v)`, `get(k)` is `v`, every other key is unchanged and
      the keys keep their order. */
  lemma SetThenGet<K(!new), V>(prev: Entries<K, V>, k: K, v: V)
    requires UniqueKeys(prev)
    ensures Get(Set(prev, k, v), k) == Some(v)
    ensures forall j | j != k :: Get(Set(prev, k, v), j) == Get(prev, j)
  {
    CopyIsSame(prev);
  }

  /** After `remove(k)`, `k` is absent and every other key is unchanged;
      removing a key that was just added restores the map. */
  lemma RemoveThenGet<K(!new), V>(prev: Entries<K, V>, k: K, v: V)
    requires UniqueKeys(prev)
    ensures Get(Remove(prev, k), k) == None
    ensures forall j | j != k :: Get(Remove(prev, k), j) == Get(prev, j)
    ensures Get(prev, k) == None ==> Remove(Set(prev, k, v), k) == prev
  {
    CopyIsSame(prev);
    if Get(prev, k) == None {
      var r := prev + [(k, v)];
      CopyIsSame(r);
      assert Find(r, k) == |prev|;
      assert r[..|prev|] == prev;
    }
  }

  /** In `new Map(entries)` (so in `setAll` and `reset`) a later entry for
      a key wins its value, and the key keeps the place of its first entry. */
  lemma LastValueWins<K(!new), V>(entries: seq<(K, V)>, k: K, v: V)
    ensures Get(FromEntries(entries + [(k, v)]), k) == Some(v)
    ensures Get(FromEntries(entries), k).Some? ==> Keys(FromEntries(entries + [(k, v)])) == Keys(FromEntries(entries))
  {
    assert (entries + [(k, v)])[..|entries|] == entries;
  }
}
