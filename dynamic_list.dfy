/** useDynamicList (src/hooks/useDynamicList/index.ts): a list whose every
    element carries a stable numeric key, for rendering form rows. Keys come
    from a counter that starts at -1 and only grows. */
module DynamicList {
  import opened Js

  /** `n` keys issued one after another, starting at `from`. */
  function FreshKeys(from: int, n: nat): (r: seq<int>)
    ensures |r| == n && forall i | 0 <= i < n :: r[i] == from + i
  {
    if n == 0 then [] else FreshKeys(from, n - 1) + [from + n - 1]
  }

  /** The keys after `merge(index, items)` with `n` items: the `i`-th
      `setKey(index + i)` splices key `next + i` at its own index, which a
      negative index resolves against the list as it is at that point. */
  function MergeKeys(ks: seq<int>, index: int, next: int, n: nat): (r: seq<int>)
    ensures |r| == |ks| + n
    decreases n
  {
    if n == 0 then ks else MergeKeys(SpliceInsert(ks, index, [next]), index + 1, next + 1, n - 1)
  }

  /** Merging at the end or past it appends the new keys in order. */
  lemma {:induction false} MergeKeysPastEnd(ks: seq<int>, index: int, next: int, n: nat)
    requires index >= |ks|
    ensures MergeKeys(ks, index, next, n) == ks + FreshKeys(next, n)
    decreases n
  {
    if n > 0 {
      assert SpliceInsert(ks, index, [next]) == ks + [next];
      MergeKeysPastEnd(ks + [next], index + 1, next + 1, n - 1);
      assert [next] + FreshKeys(next + 1, n - 1) == FreshKeys(next, n);
      assert ks + [next] + FreshKeys(next + 1, n - 1) == ks + FreshKeys(next, n);
    }
  }

  /** Merging at an index inside the key list puts the new keys there in
      order, as one splice. */
  lemma {:induction false} MergeKeysInside(ks: seq<int>, index: int, next: int, n: nat)
    requires 0 <= index <= |ks|
    ensures MergeKeys(ks, index, next, n) == SpliceInsert(ks, index, FreshKeys(next, n))
    decreases n
  {
    if n > 0 {
      var rest := FreshKeys(next + 1, n - 1);
      SpliceInsertTwice(ks, index, next, rest);
      MergeKeysInside(SpliceInsert(ks, index, [next]), index + 1, next + 1, n - 1);
      assert [next] + rest == FreshKeys(next, n);
    }
  }

  /** Inserting `x` at `index` and then `rest` right after it is one splice. */
  lemma SpliceInsertTwice(ks: seq<int>, index: int, x: int, rest: seq<int>)
    requires 0 <= index <= |ks|
    ensures SpliceInsert(SpliceInsert(ks, index, [x]), index + 1, rest) == SpliceInsert(ks, index, [x] + rest)
  {
    var a, b := ks[..index], ks[index..];
    SpliceInsertInside(ks, index, [x]);
    var ks' := a + [x] + b;
    assert ks'[..index + 1] == a + [x] && ks'[index + 1..] == b;
    SpliceInsertInside(ks', index + 1, rest);
    SpliceInsertInside(ks, index, [x] + rest);
    assert a + [x] + rest + b == a + ([x] + rest) + b;
  }

  /** `filter((_, index) => index !== i)` for an index inside the list. */
  function Without<T>(s: seq<T>, i: nat): (r: seq<T>)
    requires i < |s|
    ensures |r| == |s| - 1 && r == s[..i] + s[i + 1..]
  {
    s[..i] + s[i + 1..]
  }

  /** `s.filter((_, index) => index !== i)`: only a list index drops anything. */
  function FilterOut<T>(s: seq<T>, i: int): (r: seq<T>)
    ensures 0 <= i < |s| ==> r == Without(s, i)
    ensures i < 0 || i >= |s| ==> r == s
  {
    if 0 <= i < |s| then Without(s, i) else s
  }

  /** `s[i]`, which is `undefined` outside the list. */
  function ElementAt(s: seq<Value>, i: int): (r: Value)
    ensures 0 <= i < |s| ==> r == s[i]
    ensures i < 0 || i >= |s| ==> r == Undefined
  {
    if 0 <= i < |s| then s[i] else Undefined
  }

  /** `getIndex(getKey(i)) == i`: with no key twice, a key's first position
      is its position. */
  lemma KeyIndexRoundTrip(keys: seq<int>, i: nat)
    requires NoDup(keys) && i < |keys|
    ensures IndexOf(keys, keys[i]) == i
  {
    var r := IndexOf(keys, keys[i]);
    assert keys[r] == keys[i];
  }

  class DynamicList {
    var list: seq<Value>
    /** `keyList.current`. */
    var keys: seq<int>
    /** `counterRef.current`: the last key issued. */
    var counter: int

    /** No key twice, and every key has been issued already. */
    ghost predicate Valid()
      reads this
    {
      counter >= -1 && NoDup(keys) && forall k | k in keys :: 0 <= k <= counter
    }

    /** One key per element. */
    predicate Aligned()
      reads this
    {
      |keys| == |list|
    }

    /** `setKey(index)`: the next key, spliced in at `index`. */
    method SetKey(index: int)
      requires Valid()
      modifies this
      ensures Valid() && list == old(list) && counter == old(counter) + 1
      ensures keys == SpliceInsert(old(keys), index, [counter])
    {
      NoDupInsert(keys, index, counter + 1);
      counter := counter + 1;
      keys := SpliceInsert(keys, index, [counter]);
    }

    /** `forEach((_, index) => setKey(index))` starting from no keys. */
    method KeyAll(n: nat)
      requires Valid() && keys == []
      modifies this
      ensures Valid() && list == old(list)
      ensures keys == FreshKeys(old(counter) + 1, n) && counter == old(counter) + n
    {
      var i := 0;
      while i < n
        invariant 0 <= i <= n && Valid() && list == old(list)
        invariant keys == FreshKeys(old(counter) + 1, i) && counter == old(counter) + i
      {
        SetKey(i);
        i := i + 1;
      }
    }

    /** `useDynamicList(initialList)`: keys 0, 1, ... for the initial list. */
    constructor (initialList: seq<Value>)
      ensures Valid() && Aligned() && list == initialList
      ensures keys == FreshKeys(0, |initialList|) && counter == |initialList| - 1
    {
      list := initialList;
      keys := [];
      counter := -1;
      new;
      KeyAll(|initialList|);
    }

    /** `resetList(newList)`: new keys for every element, all of them
        greater than any key ever issued before. */
    method ResetList(newList: seq<Value>)
      requires Valid()
      modifies this
      ensures Valid() && Aligned() && list == newList
      ensures keys == FreshKeys(old(counter) + 1, |newList|) && counter == old(counter) + |newList|
      ensures forall k | k in keys :: k > old(counter)
    {
      keys := [];
      KeyAll(|newList|);
      list := newList;
    }

    /** `insert(index, item)`: the item and a new key enter at the same place. */
    method Insert(index: int, item: Value)
      requires Valid()
      modifies this
      ensures Valid() && counter == old(counter) + 1
      ensures list == SpliceInsert(old(list), index, [item])
      ensures keys == SpliceInsert(old(keys), index, [counter]) && counter !in old(keys)
      ensures old(Aligned()) ==> Aligned()
    {
      list := SpliceInsert(list, index, [item]);
      SetKey(index);
    }

    /** `items.forEach((_, i) => setKey(index + i))`. */
    method SetKeysFrom(index: int, n: nat)
      requires Valid()
      modifies this
      ensures Valid() && list == old(list) && counter == old(counter) + n
      ensures keys == MergeKeys(old(keys), index, old(counter) + 1, n)
    {
      var i := 0;
      while i < n
        invariant 0 <= i <= n && Valid() && list == old(list)
        invariant counter == old(counter) + i
        invariant MergeKeys(keys, index + i, counter + 1, n - i) == MergeKeys(old(keys), index, old(counter) + 1, n)
      {
        SetKey(index + i);
        i := i + 1;
      }
    }

    /** `merge(index, items)`: one `setKey(index + i)` per item, then the
        items are spliced in; for an index inside the list the new keys sit
        exactly where the items do. A negative index splices the keys at
        positions that no longer match the items'. */
    method Merge(index: int, items: seq<Value>)
      requires Valid()
      modifies this
      ensures Valid() && counter == old(counter) + |items|
      ensures list == SpliceInsert(old(list), index, items)
      ensures |keys| == |old(keys)| + |items|
      ensures old(Aligned()) ==> Aligned()
      ensures keys == MergeKeys(old(keys), index, old(counter) + 1, |items|)
      ensures 0 <= index <= |old(keys)| ==> keys == SpliceInsert(old(keys), index, FreshKeys(old(counter) + 1, |items|))
      ensures index >= |old(keys)| ==> keys == old(keys) + FreshKeys(old(counter) + 1, |items|)
    {
      SetKeysFrom(index, |items|);
      if 0 <= index <= |old(keys)| {
        MergeKeysInside(old(keys), index, old(counter) + 1, |items|);
      }
      if index >= |old(keys)| {
        MergeKeysPastEnd(old(keys), index, old(counter) + 1, |items|);
      }
      list := SpliceInsert(list, index, items);
    }

    /** `replace(index, item)`: `temp[index] = item`. Inside the list it
        replaces one element; a negative index sets no element; past the end
        the array grows with holes. Keys are never touched. */
    method Replace(index: int, item: Value)
      modifies this
      ensures keys == old(keys) && counter == old(counter)
      ensures 0 <= index < |old(list)| ==> list == old(list)[index := item]
      ensures index < 0 ==> list == old(list)
      ensures index >= |old(list)| ==> list == old(list) + seq(index - |old(list)|, _ => Undefined) + [item]
    {
      if 0 <= index < |list| {
        list := list[index := item];
      } else if index >= |list| {
        list := list + seq(index - |list|, _ => Undefined) + [item];
      }
    }

    /** `remove(index)`: the element and its key leave together. */
    method Remove(index: int)
      requires Valid()
      modifies this
      ensures Valid() && counter == old(counter)
      ensures list == SpliceRemove(old(list), index, 1) && keys == SpliceRemove(old(keys), index, 1)
      ensures old(Aligned()) ==> Aligned()
      ensures 0 <= index < |old(keys)| ==> old(keys)[index] !in keys
    {
      if 0 <= index < |keys| {
        assert keys == keys[..index] + [keys[index]] + keys[index + 1..];
      }
      ghost var before := keys;
      list := SpliceRemove(list, index, 1);
      keys := SpliceRemove(keys, index, 1);
      assert forall k | k in keys :: k in before;
    }

    /** `move(oldIndex, newIndex)`: the element and its key are taken out
        and spliced in again at `newIndex`; `move(a, a)` changes nothing.
        An `oldIndex` outside the element list filters nothing out and
        splices in `undefined`. */
    method Move(oldIndex: int, newIndex: int)
      requires Valid() && 0 <= oldIndex < |keys|
      modifies this
      ensures Valid() && counter == old(counter)
      ensures old(Aligned()) ==> Aligned()
      ensures oldIndex == newIndex ==> list == old(list) && keys == old(keys)
      ensures oldIndex != newIndex ==>
        && list == SpliceInsert(FilterOut(old(list), oldIndex), newIndex, [ElementAt(old(list), oldIndex)])
        && keys == SpliceInsert(Without(old(keys), oldIndex), newIndex, [old(keys)[oldIndex]])
      ensures oldIndex != newIndex && 0 <= newIndex < |list| ==> list[newIndex] == ElementAt(old(list), oldIndex)
      ensures oldIndex != newIndex && 0 <= newIndex < |keys| ==> keys[newIndex] == old(keys)[oldIndex]
      ensures forall k :: k in keys <==> k in old(keys)
    {
      if oldIndex == newIndex {
        return;
      }
      var item, key := ElementAt(list, oldIndex), keys[oldIndex];
      var rest := Without(keys, oldIndex);
      NoDupDrop(keys, oldIndex, oldIndex + 1);
      assert keys == rest[..oldIndex] + [key] + rest[oldIndex..];
      NoDupInsert(rest, newIndex, key);
      list := SpliceInsert(FilterOut(list, oldIndex), newIndex, [item]);
      keys := SpliceInsert(rest, newIndex, [key]);
      assert forall k | k in keys :: k in old(keys);
    }

    /** `push(item)`: a new key at position `|list|`, the item at the end. */
    method Push(item: Value)
      requires Valid()
      modifies this
      ensures Valid() && counter == old(counter) + 1
      ensures list == old(list) + [item] && keys == SpliceInsert(old(keys), |old(list)|, [counter])
      ensures old(Aligned()) ==> Aligned() && keys == old(keys) + [counter]
    {
      SetKey(|list|);
      list := list + [item];
    }

    /** `pop()`: the last key and the last element go. */
    method Pop()
      requires Valid()
      modifies this
      ensures Valid() && counter == old(counter)
      ensures list == Slice(old(list), 0, |old(list)| - 1) && keys == Slice(old(keys), 0, |old(keys)| - 1)
      ensures old(list) != [] ==> list == old(list)[..|old(list)| - 1]
      ensures old(keys) != [] ==> keys == old(keys)[..|old(keys)| - 1]
      ensures old(Aligned()) ==> Aligned()
    {
      keys := Slice(keys, 0, |keys| - 1);
      list := Slice(list, 0, |list| - 1);
    }

    /** `unshift(item)`: a new key and the item at the front. */
    method Unshift(item: Value)
      requires Valid()
      modifies this
      ensures Valid() && counter == old(counter) + 1
      ensures list == [item] + old(list) && keys == [counter] + old(keys)
      ensures old(Aligned()) ==> Aligned()
    {
      SetKey(0);
      list := [item] + list;
    }

    /** `shift()`: the first key and the first element go. */
    method Shift()
      requires Valid()
      modifies this
      ensures Valid() && counter == old(counter)
      ensures list == Slice(old(list), 1, |old(list)|) && keys == Slice(old(keys), 1, |old(keys)|)
      ensures old(list) != [] ==> list == old(list)[1..]
      ensures old(keys) != [] ==> keys == old(keys)[1..]
      ensures old(Aligned()) ==> Aligned()
    {
      keys := Slice(keys, 1, |keys|);
      list := Slice(list, 1, |list|);
    }

    /** `getKey(index)`: the key at `index`, undefined outside the list. */
    function GetKey(index: int): (r: Option<int>)
      reads this
      ensures 0 <= index < |keys| ==> r == Some(keys[index])
      ensures !(0 <= index < |keys|) ==> r == None
    {
      if 0 <= index < |keys| then Some(keys[index]) else None
    }

    /** `getIndex(key)`: the key's position, or -1. */
    function GetIndex(key: int): (r: int)
      reads this
      ensures -1 <= r < |keys|
      ensures r == -1 <==> key !in keys
      ensures r >= 0 ==> keys[r] == key
    {
      IndexOf(keys, key)
    }

    /** `sortList(result)`: the truthy items of `result`, every one of
        them, stably ordered by the current position of their index's key. */
    function SortList(result: seq<Value>): (r: seq<Value>)
      reads this
      ensures |r| <= |result|
      ensures forall x | x in r :: x in result && Truthy(x)
      ensures forall i | 0 <= i < |result| && Truthy(result[i]) :: result[i] in r
      ensures r == Items(SortedSurvivors(keys, result))
    {
      SortByPosition(keys, result)
    }
  }

  /** An element of `result` tagged with its index, which names a key. */
  datatype Tagged = Tagged(key: int, item: Value)

  function Rank(keys: seq<int>, t: Tagged): int {
    IndexOf(keys, t.key)
  }

  predicate SortedByRank(keys: seq<int>, s: seq<Tagged>) {
    forall i, j | 0 <= i < j < |s| :: Rank(keys, s[i]) <= Rank(keys, s[j])
  }

  /** `a` sorts before `b`: a lower key position, or the same position and
      a lower index, which is where a stable sort of indexed entries puts it. */
  predicate Before(keys: seq<int>, a: Tagged, b: Tagged) {
    Rank(keys, a) < Rank(keys, b) || (Rank(keys, a) == Rank(keys, b) && a.key < b.key)
  }

  /** Strictly ordered by key position, ties broken by index. */
  predicate SortedStably(keys: seq<int>, s: seq<Tagged>) {
    forall i, j | 0 <= i < j < |s| :: Before(keys, s[i], s[j])
  }

  /** Indices strictly ascending, as `map((item, index) => ...)` tags them. */
  predicate IndicesAscending(s: seq<Tagged>) {
    forall i, j | 0 <= i < j < |s| :: s[i].key < s[j].key
  }

  /** Inserts `x` after every element ranked no higher, so equal ranks keep
      their order. */
  function InsertByRank(keys: seq<int>, x: Tagged, s: seq<Tagged>): (r: seq<Tagged>)
    requires SortedByRank(keys, s)
    ensures SortedByRank(keys, r) && multiset(r) == multiset(s) + multiset{x}
  {
    if s == [] then [x]
    else if Rank(keys, x) < Rank(keys, s[0]) then [x] + s
    else
      var tail := InsertByRank(keys, x, s[1..]);
      assert s == [s[0]] + s[1..];
      HeadBelow(keys, s[0], x, s[1..], tail);
      [s[0]] + tail
  }

  lemma HeadBelow(keys: seq<int>, h: Tagged, x: Tagged, rest: seq<Tagged>, tail: seq<Tagged>)
    requires multiset(tail) == multiset(rest) + multiset{x}
    requires Rank(keys, h) <= Rank(keys, x)
    requires forall j | 0 <= j < |rest| :: Rank(keys, h) <= Rank(keys, rest[j])
    ensures forall j | 0 <= j < |tail| :: Rank(keys, h) <= Rank(keys, tail[j])
  {
    forall j | 0 <= j < |tail|
      ensures Rank(keys, h) <= Rank(keys, tail[j])
    {
      assert tail[j] in multiset(tail);
      if tail[j] != x {
        assert tail[j] in multiset(rest);
        var k :| 0 <= k < |rest| && rest[k] == tail[j];
      }
    }
  }

  /** The stable sort `sort((a, b) => getIndex(a.key) - getIndex(b.key))`:
      ordered by the current position of each key, a permutation of the input. */
  function SortByRank(keys: seq<int>, s: seq<Tagged>): (r: seq<Tagged>)
    ensures SortedByRank(keys, r) && multiset(r) == multiset(s)
  {
    if s == [] then []
    else
      assert s == s[..|s| - 1] + [s[|s| - 1]];
      InsertByRank(keys, s[|s| - 1], SortByRank(keys, s[..|s| - 1]))
  }

  /** An entry before every entry of a stably sorted list can go in front. */
  lemma ConsSortedStably(keys: seq<int>, h: Tagged, tail: seq<Tagged>)
    requires SortedStably(keys, tail)
    requires forall j | 0 <= j < |tail| :: Before(keys, h, tail[j])
    ensures SortedStably(keys, [h] + tail)
  {
    var r := [h] + tail;
    forall i, j | 0 <= i < j < |r|
      ensures Before(keys, r[i], r[j])
    {
      assert r[j] == tail[j - 1];
      if i > 0 {
        assert r[i] == tail[i - 1];
      }
    }
  }

  /** Inserting an entry whose index is above every other one keeps the
      stable order: it goes after every entry of the same key position. */
  lemma {:induction false} InsertByRankStable(keys: seq<int>, x: Tagged, s: seq<Tagged>)
    requires SortedByRank(keys, s) && SortedStably(keys, s)
    requires forall t | t in s :: t.key < x.key
    ensures SortedStably(keys, InsertByRank(keys, x, s))
  {
    if s == [] {
      return;
    }
    if Rank(keys, x) < Rank(keys, s[0]) {
      forall j | 0 <= j < |s|
        ensures Before(keys, x, s[j])
      {
        assert Rank(keys, s[0]) <= Rank(keys, s[j]);
      }
      ConsSortedStably(keys, x, s);
      return;
    }
    var tail := InsertByRank(keys, x, s[1..]);
    assert s == [s[0]] + s[1..];
    InsertByRankStable(keys, x, s[1..]);
    forall j | 0 <= j < |tail|
      ensures Before(keys, s[0], tail[j])
    {
      assert tail[j] in multiset(tail);
      if tail[j] != x {
        assert tail[j] in multiset(s[1..]);
        var k :| 0 <= k < |s[1..]| && s[1..][k] == tail[j];
        assert s[k + 1] == tail[j];
      }
    }
    ConsSortedStably(keys, s[0], tail);
    assert InsertByRank(keys, x, s) == [s[0]] + tail;
  }

  /** The insertion sort of entries with ascending indices is the stable
      order: by key position, then by index. */
  lemma {:induction false} SortByRankStable(keys: seq<int>, s: seq<Tagged>)
    requires IndicesAscending(s)
    ensures SortedStably(keys, SortByRank(keys, s))
  {
    if s == [] {
      return;
    }
    var init, last := s[..|s| - 1], s[|s| - 1];
    SortByRankStable(keys, init);
    var sorted := SortByRank(keys, init);
    forall t | t in sorted
      ensures t.key < last.key
    {
      assert t in multiset(sorted);
      assert t in multiset(init);
      var k :| 0 <= k < |init| && init[k] == t;
    }
    InsertByRankStable(keys, last, sorted);
  }

  function Tag(result: seq<Value>): (r: seq<Tagged>)
    ensures |r| == |result| && forall i | 0 <= i < |result| :: r[i] == Tagged(i, result[i])
  {
    seq(|result|, i requires 0 <= i < |result| => Tagged(i, result[i]))
  }

  /** `filter((item) => !!item.item)`. */
  function KeepTruthy(keys: seq<int>, s: seq<Tagged>): (r: seq<Tagged>)
    ensures |r| <= |s|
    ensures forall t :: t in r <==> t in s && Truthy(t.item)
    ensures SortedByRank(keys, s) ==> SortedByRank(keys, r)
  {
    if s == [] then []
    else
      var rest := KeepTruthy(keys, s[1..]);
      KeepTruthyStep(keys, s, rest);
      if Truthy(s[0].item) then [s[0]] + rest else rest
  }

  /** One step of the filter: the head, when kept, goes in front of what is
      kept from the tail, and the order by rank survives. */
  lemma KeepTruthyStep(keys: seq<int>, s: seq<Tagged>, rest: seq<Tagged>)
    requires s != [] && forall t :: t in rest <==> t in s[1..] && Truthy(t.item)
    requires SortedByRank(keys, s[1..]) ==> SortedByRank(keys, rest)
    ensures var r := if Truthy(s[0].item) then [s[0]] + rest else rest;
      (forall t :: t in r <==> t in s && Truthy(t.item)) && (SortedByRank(keys, s) ==> SortedByRank(keys, r))
  {
    assert s == [s[0]] + s[1..];
    assert forall t :: t in s <==> t == s[0] || t in s[1..];
    if SortedByRank(keys, s) {
      SortedByRankTail(keys, s);
      if Truthy(s[0].item) {
        SortedByRankCons(keys, s, rest);
      }
    }
  }

  lemma SortedByRankTail(keys: seq<int>, s: seq<Tagged>)
    requires s != [] && SortedByRank(keys, s)
    ensures SortedByRank(keys, s[1..])
  {
    forall i, j | 0 <= i < j < |s[1..]|
      ensures Rank(keys, s[1..][i]) <= Rank(keys, s[1..][j])
    {
      assert s[1..][i] == s[i + 1] && s[1..][j] == s[j + 1];
    }
  }

  /** A sorted selection from the tail stays sorted behind the head. */
  lemma SortedByRankCons(keys: seq<int>, s: seq<Tagged>, rest: seq<Tagged>)
    requires s != [] && SortedByRank(keys, s) && SortedByRank(keys, rest)
    requires forall t | t in rest :: t in s[1..]
    ensures SortedByRank(keys, [s[0]] + rest)
  {
    var r := [s[0]] + rest;
    forall i, j | 0 <= i < j < |r|
      ensures Rank(keys, r[i]) <= Rank(keys, r[j])
    {
      assert r[j] == rest[j - 1];
      if i == 0 {
        assert rest[j - 1] in s[1..];
        var k :| 0 <= k < |s[1..]| && s[1..][k] == rest[j - 1];
        assert s[k + 1] == rest[j - 1];
      } else {
        assert r[i] == rest[i - 1];
      }
    }
  }

  /** Each truthy entry is kept as often as it occurs, and no other one. */
  lemma {:induction false} KeepTruthyCounts(keys: seq<int>, s: seq<Tagged>)
    ensures forall t :: multiset(KeepTruthy(keys, s))[t] == if Truthy(t.item) then multiset(s)[t] else 0
  {
    if s != [] {
      KeepTruthyCounts(keys, s[1..]);
      assert s == [s[0]] + s[1..];
    }
  }

  /** Filtering keeps the stable order. */
  lemma {:induction false} KeepTruthyStable(keys: seq<int>, s: seq<Tagged>)
    requires SortedStably(keys, s)
    ensures SortedStably(keys, KeepTruthy(keys, s))
  {
    if s != [] {
      var rest := KeepTruthy(keys, s[1..]);
      SortedStablyTail(keys, s);
      KeepTruthyStable(keys, s[1..]);
      if Truthy(s[0].item) {
        forall j | 0 <= j < |rest|
          ensures Before(keys, s[0], rest[j])
        {
          assert rest[j] in s[1..];
          var k :| 0 <= k < |s[1..]| && s[1..][k] == rest[j];
          assert s[k + 1] == rest[j];
        }
        ConsSortedStably(keys, s[0], rest);
      }
    }
  }

  lemma SortedStablyTail(keys: seq<int>, s: seq<Tagged>)
    requires s != [] && SortedStably(keys, s)
    ensures SortedStably(keys, s[1..])
  {
    forall i, j | 0 <= i < j < |s[1..]|
      ensures Before(keys, s[1..][i], s[1..][j])
    {
      assert s[1..][i] == s[i + 1] && s[1..][j] == s[j + 1];
    }
  }

  /** Filtering a concatenation filters each part: the kept entries keep
      their order. */
  lemma {:induction false} KeepTruthyAppend(keys: seq<int>, s1: seq<Tagged>, s2: seq<Tagged>)
    ensures KeepTruthy(keys, s1 + s2) == KeepTruthy(keys, s1) + KeepTruthy(keys, s2)
  {
    if s1 == [] {
      assert s1 + s2 == s2;
    } else {
      assert (s1 + s2)[1..] == s1[1..] + s2;
      KeepTruthyAppend(keys, s1[1..], s2);
    }
  }

  function Items(s: seq<Tagged>): (r: seq<Value>)
    ensures |r| == |s| && forall i | 0 <= i < |s| :: r[i] == s[i].item
  {
    seq(|s|, i requires 0 <= i < |s| => s[i].item)
  }

  /** The tagged survivors of `sortList`: exactly the truthy entries of
      `result`, ordered by the current position of their key, and entries
      of the same position in index order. */
  function SortedSurvivors(keys: seq<int>, result: seq<Value>): (r: seq<Tagged>)
    ensures SortedByRank(keys, r) && SortedStably(keys, r)
    ensures forall t :: t in r <==> t in Tag(result) && Truthy(t.item)
  {
    SortByRankStable(keys, Tag(result));
    var sorted := SortByRank(keys, Tag(result));
    KeepTruthyStable(keys, sorted);
    assert forall t :: t in sorted <==> t in multiset(sorted);
    KeepTruthy(keys, sorted)
  }

  /** Every truthy item of `result` survives `sortList`. */
  lemma SurvivorsComplete(keys: seq<int>, result: seq<Value>)
    ensures forall i | 0 <= i < |result| && Truthy(result[i]) :: result[i] in Items(SortedSurvivors(keys, result))
  {
    var survivors := SortedSurvivors(keys, result);
    forall i | 0 <= i < |result| && Truthy(result[i])
      ensures result[i] in Items(survivors)
    {
      assert Tag(result)[i] == Tagged(i, result[i]);
      assert Tagged(i, result[i]) in survivors;
      var k :| 0 <= k < |survivors| && survivors[k] == Tagged(i, result[i]);
      assert Items(survivors)[k] == result[i];
    }
  }

  function SortByPosition(keys: seq<int>, result: seq<Value>): (r: seq<Value>)
    ensures |r| <= |result|
    ensures forall x | x in r :: x in result && Truthy(x)
    ensures forall i | 0 <= i < |result| && Truthy(result[i]) :: result[i] in r
    ensures r == Items(SortedSurvivors(keys, result))
  {
    SurvivorsSound(keys, result);
    SurvivorsComplete(keys, result);
    Items(SortedSurvivors(keys, result))
  }

  /** `sortList` keeps only truthy items of `result`, and no more of them
      than `result` has. */
  lemma SurvivorsSound(keys: seq<int>, result: seq<Value>)
    ensures |SortedSurvivors(keys, result)| <= |result|
    ensures forall x | x in Items(SortedSurvivors(keys, result)) :: x in result && Truthy(x)
  {
    var survivors := SortedSurvivors(keys, result);
    var sorted := SortByRank(keys, Tag(result));
    assert |survivors| == |KeepTruthy(keys, sorted)| <= |sorted|;
    assert |multiset(sorted)| == |multiset(Tag(result))|;
    forall x | x in Items(survivors)
      ensures x in result && Truthy(x)
    {
      var i :| 0 <= i < |survivors| && Items(survivors)[i] == x;
      assert survivors[i] in Tag(result);
    }
  }

  /** With keys `[0, 1]`, `merge(-1, [p, q])` gives the items `[x, p, q, y]`
      but the keys `[3, 0, 2, 1]`: each `setKey(-1 + i)` resolves its own
      relative index, so the new keys do not sit next to their items. */
  method NegativeMergeMisaligns(x: Value, y: Value, p: Value, q: Value) returns (list: seq<Value>, keys: seq<int>)
    ensures list == [x, p, q, y] && keys == [3, 0, 2, 1]
  {
    var d := new DynamicList([x, y]);
    assert d.keys == [0, 1];
    d.Merge(-1, [p, q]);
    assert SpliceInsert([0, 1], -1, [2]) == [0, 2, 1];
    assert SpliceInsert([0, 2, 1], 0, [3]) == [3, 0, 2, 1];
    list, keys := d.list, d.keys;
  }
}
