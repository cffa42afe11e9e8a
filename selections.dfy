/** useSelections (src/hooks/useSelections/index.ts): a selection over a
    list of items. The state is the `selected` array; every action copies it
    into an insertion-ordered `Set`, changes the set and stores
    `Array.from(set)` back, so after any action the array holds no repeats. */
module Selections {
  import opened Js

  /** `xs.forEach(o => set.add(o))`: the earlier elements keep their order
      at the front and the new ones follow. */
  function AddAll<T(==)>(s: seq<T>, xs: seq<T>): (r: seq<T>)
    ensures |s| <= |r| && r[..|s|] == s
    ensures NoDup(s) ==> NoDup(r)
    ensures forall y | y in r :: y in s || y in xs
    ensures (forall y | y in s :: y in r) && (forall y | y in xs :: y in r)
  {
    if xs == [] then s else SetAdd(AddAll(s, xs[..|xs| - 1]), xs[|xs| - 1])
  }

  /** `xs.forEach(o => set.delete(o))` on a set. */
  function DeleteAll<T(==)>(s: seq<T>, xs: seq<T>): (r: seq<T>)
    ensures forall y | y in r :: y in s
    ensures NoDup(s) ==> NoDup(r)
    ensures NoDup(s) ==> (forall y | y in xs :: y !in r) && (forall y | y in s && y !in xs :: y in r)
  {
    if xs == [] then s else RemoveFirst(DeleteAll(s, xs[..|xs| - 1]), xs[|xs| - 1])
  }

  /** `noneSelected`: `items.every(o => !selectedSet.has(o))`, so no item
      is in the array. */
  predicate NoneSelected<T(==)>(items: seq<T>, selected: seq<T>)
    ensures NoneSelected(items, selected) <==> forall i | 0 <= i < |items| :: items[i] !in selected
  {
    forall i | 0 <= i < |items| :: items[i] !in SetFrom(selected)
  }

  /** `allSelected`: every item is in the set, and `noneSelected` is false.
      So there is an item and every item is in the array: an empty item list
      is never all selected. */
  predicate AllSelected<T(==)>(items: seq<T>, selected: seq<T>)
    ensures AllSelected(items, selected) <==> items != [] && forall i | 0 <= i < |items| :: items[i] in selected
  {
    assert items != [] && (forall i | 0 <= i < |items| :: items[i] in selected) ==> items[0] in SetFrom(selected);
    (forall i | 0 <= i < |items| :: items[i] in SetFrom(selected)) && !NoneSelected(items, selected)
  }

  /** `partiallySelected`: neither of the other two, so one item is in the
      array and another is not. */
  predicate PartiallySelected<T(==)>(items: seq<T>, selected: seq<T>)
    ensures PartiallySelected(items, selected) <==>
      (exists i | 0 <= i < |items| :: items[i] in selected) && (exists j | 0 <= j < |items| :: items[j] !in selected)
  {
    !NoneSelected(items, selected) && !AllSelected(items, selected)
  }

  /** Exactly one of the three flags holds. */
  lemma Flags<T>(items: seq<T>, selected: seq<T>)
    ensures NoneSelected(items, selected) || AllSelected(items, selected) || PartiallySelected(items, selected)
    ensures !(NoneSelected(items, selected) && AllSelected(items, selected))
  {
  }

  class Selections<T(==)> {
    const items: seq<T>
    /** The `selected` state. */
    var selected: seq<T>

    /** `useSelections(items, defaultSelected = [])`: the state starts as
        `defaultSelected` itself, repeats included. */
    constructor (items: seq<T>, defaultSelected: Option<seq<T>>)
      ensures this.items == items && selected == defaultSelected.GetOr([])
    {
      this.items := items;
      selected := defaultSelected.GetOr([]);
    }

    /** `isSelected(item)`: `selectedSet.has(item)`. */
    predicate IsSelected(item: T)
      reads this
      ensures IsSelected(item) <==> item in selected
    {
      item in SetFrom(selected)
    }

    /** `select(item)`: the set with `item` added, the earlier selections
        first and in their order. */
    method Select(item: T)
      modifies this
      ensures selected == SetAdd(SetFrom(old(selected)), item)
      ensures NoDup(selected) && item in selected
      ensures forall y | y != item :: y in selected <==> y in old(selected)
    {
      selected := SetAdd(SetFrom(selected), item);
    }

    /** `unSelect(item)`: the set without `item`, the rest in their order. */
    method UnSelect(item: T)
      modifies this
      ensures selected == RemoveFirst(SetFrom(old(selected)), item)
      ensures NoDup(selected) && item !in selected
      ensures forall y | y != item :: y in selected <==> y in old(selected)
    {
      selected := RemoveFirst(SetFrom(selected), item);
    }

    /** `toggle(item)` flips the membership of `item` only. */
    method Toggle(item: T)
      modifies this
      ensures IsSelected(item) <==> !old(IsSelected(item))
      ensures forall y | y != item :: y in selected <==> y in old(selected)
      ensures NoDup(selected)
    {
      if IsSelected(item) {
        UnSelect(item);
      } else {
        Select(item);
      }
    }

    /** `selectAll()`: every item added to the set, one after another. */
    method SelectAll()
      modifies this
      ensures selected == AddAll(SetFrom(old(selected)), items)
    {
      var s := SetFrom(selected);
      ghost var s0 := s;
      for i := 0 to |items|
        invariant s == AddAll(s0, items[..i])
      {
        assert items[..i + 1][..i] == items[..i];
        s := SetAdd(s, items[i]);
      }
      assert items[..|items|] == items;
      selected := s;
    }

    /** `unSelectAll()`: every item deleted from the set, one after another. */
    method UnSelectAll()
      modifies this
      ensures selected == DeleteAll(SetFrom(old(selected)), items)
    {
      var s := SetFrom(selected);
      ghost var s0 := s;
      for i := 0 to |items|
        invariant s == DeleteAll(s0, items[..i])
      {
        assert items[..i + 1][..i] == items[..i];
        s := RemoveFirst(s, items[i]);
      }
      assert items[..|items|] == items;
      selected := s;
    }

    /** `toggleAll()`: `unSelectAll` when all are selected, else `selectAll`. */
    method ToggleAll()
      modifies this
      ensures old(AllSelected(items, selected)) ==> selected == DeleteAll(SetFrom(old(selected)), items)
      ensures !old(AllSelected(items, selected)) ==> selected == AddAll(SetFrom(old(selected)), items)
    {
      if AllSelected(items, selected) {
        UnSelectAll();
      } else {
        SelectAll();
      }
    }
  }

  /** `selectAll` selects every item without repeats and keeps the earlier
      selections, in their order, in front. */
  lemma SelectAllSelectsEvery<T>(items: seq<T>, selected: seq<T>)
    ensures var r := AddAll(SetFrom(selected), items);
      && NoDup(r) && r[..|SetFrom(selected)|] == SetFrom(selected)
      && (items != [] ==> AllSelected(items, r))
      && forall y | y in selected :: y in r
  {
    var r := AddAll(SetFrom(selected), items);
    SetFromNoDup(r);
    Flags(items, r);
  }

  /** `unSelectAll` deselects every item and keeps every selection that is
      not an item. */
  lemma UnSelectAllSelectsNone<T>(items: seq<T>, selected: seq<T>)
    ensures var r := DeleteAll(SetFrom(selected), items);
      && NoDup(r) && NoneSelected(items, r)
      && forall y | y in selected && y !in items :: y in r
  {
    var r := DeleteAll(SetFrom(selected), items);
    SetFromNoDup(r);
    Flags(items, r);
  }

  /** Selecting and then deselecting a new element restores the set. */
  lemma SelectThenUnSelect<T>(selected: seq<T>, item: T)
    requires item !in selected
    ensures RemoveFirst(SetFrom(SetAdd(SetFrom(selected), item)), item) == SetFrom(selected)
  {
    SetFromNoDup(SetAdd(SetFrom(selected), item));
    RemoveFirstAppended(SetFrom(selected), item);
  }

  lemma AddAllStep<T>(s: seq<T>, xs: seq<T>, x: T)
    ensures AddAll(s, xs + [x]) == SetAdd(AddAll(s, xs), x)
  {
    assert (xs + [x])[..|xs|] == xs;
  }

  lemma DeleteAllStep<T>(s: seq<T>, xs: seq<T>, x: T)
    ensures DeleteAll(s, xs + [x]) == RemoveFirst(DeleteAll(s, xs), x)
  {
    assert (xs + [x])[..|xs|] == xs;
  }

  lemma SetFromRepeat()
    ensures SetFrom([2, 2]) == [2]
  {
    assert [2, 2][..1] == [2] && [2][..0] == [];
  }

  lemma SelectAllOne()
    ensures AddAll([2], [1]) == [2, 1]
  {
    AddAllStep([2], [], 1);
    assert [] + [1] == [1];
  }

  lemma SelectAllTwo()
    ensures AddAll([2], [1, 2]) == [2, 1]
  {
    SelectAllOne();
    AddAllStep([2], [1], 2);
    assert [1] + [2] == [1, 2];
  }

  lemma SelectAllConcrete()
    ensures AddAll([2], [1, 2, 3]) == [2, 1, 3]
  {
    SelectAllTwo();
    AddAllStep([2], [1, 2], 3);
    assert [1, 2] + [3] == [1, 2, 3];
  }

  lemma InitialIsPartial()
    ensures PartiallySelected([1, 2, 3], [2, 2])
  {
    Flags([1, 2, 3], [2, 2]);
    assert [1, 2, 3][1] in [2, 2] && [1, 2, 3][0] !in [2, 2];
  }

  lemma AfterFirstIsAll()
    ensures SetFrom([2, 1, 3]) == [2, 1, 3]
    ensures AllSelected([1, 2, 3], [2, 1, 3])
  {
    SetFromNoDup([2, 1, 3]);
    Flags([1, 2, 3], [2, 1, 3]);
  }

  lemma UnSelectAllOne()
    ensures DeleteAll([2, 1, 3], [1]) == [2, 3]
  {
    DeleteAllStep([2, 1, 3], [], 1);
    assert [] + [1] == [1];
    RemoveFirstAt([2, 1, 3], 1, 1);
  }

  lemma UnSelectAllTwo()
    ensures DeleteAll([2, 1, 3], [1, 2]) == [3]
  {
    UnSelectAllOne();
    DeleteAllStep([2, 1, 3], [1], 2);
    assert [1] + [2] == [1, 2];
    RemoveFirstAt([2, 3], 2, 0);
  }

  lemma UnSelectAllConcrete(s: seq<int>, items: seq<int>)
    requires s == [2, 1, 3] && items == [1, 2, 3]
    ensures DeleteAll(s, items) == []
  {
    UnSelectAllTwo();
    assert items == [1, 2] + [3];
    DeleteAllStep(s, [1, 2], 3);
    assert |RemoveFirst([3], 3)| == 0;
  }

  /** Items 1, 2, 3 with `[2, 2]` preselected: partly selected; `toggleAll`
      selects all as `[2, 1, 3]`; a second `toggleAll` clears the selection. */
  method ToggleAllTwice() returns (initial: seq<int>, afterFirst: seq<int>, afterSecond: seq<int>)
    ensures initial == [2, 2] && PartiallySelected([1, 2, 3], initial)
    ensures afterFirst == [2, 1, 3] && AllSelected([1, 2, 3], afterFirst)
    ensures afterSecond == [] && NoneSelected([1, 2, 3], afterSecond)
  {
    SetFromRepeat();
    SelectAllConcrete();
    InitialIsPartial();
    AfterFirstIsAll();
    UnSelectAllConcrete([2, 1, 3], [1, 2, 3]);
    var s := new Selections([1, 2, 3], Some([2, 2]));
    initial := s.selected;
    s.ToggleAll();
    afterFirst := s.selected;
    s.ToggleAll();
    afterSecond := s.selected;
    Flags([1, 2, 3], afterSecond);
  }
}
