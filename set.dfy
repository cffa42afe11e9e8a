/** useSet (src/hooks/useSet/index.ts): a `Set` state that every action
    replaces by a modified copy. A `Set` is held as its elements in
    iteration order, each once. */
module SetHook {
  import opened Js

  /** `useState(() => new Set(initialValue))`, also `reset()`. */
  function Init<K(==)>(initialValue: Option<seq<K>>): (r: seq<K>)
    ensures NoDup(r)
    ensures initialValue.None? ==> r == []
    ensures forall y | y in r :: y in initialValue.GetOr([])
    ensures forall y | y in initialValue.GetOr([]) :: y in r
  {
    SetFrom(initialValue.GetOr([]))
  }

  /** `add(key)`: nothing when the key is present; otherwise a copy with the
      key added last, every other element unchanged. */
  function Add<K(==)>(s: seq<K>, key: K): (r: seq<K>)
    requires NoDup(s)
    ensures NoDup(r)
    ensures key in s ==> r == s
    ensures key !in s ==> r == s + [key]
    ensures key in r
  {
    SetFromNoDup(s);
    if key in s then s else SetAdd(SetFrom(s), key)
  }

  /** `remove(key)`: nothing when the key is absent; otherwise a copy
      without it, the others in their order. */
  function Remove<K(==)>(s: seq<K>, key: K): (r: seq<K>)
    requires NoDup(s)
    ensures NoDup(r) && key !in r
    ensures key !in s ==> r == s
    ensures forall y | y in s && y != key :: y in r
    ensures forall y | y in r :: y in s
  {
    SetFromNoDup(s);
    if key !in s then s else RemoveFirst(SetFrom(s), key)
  }

  /** Adding a key that was not present and removing it again restores
      the set, order included. */
  lemma AddThenRemove<K>(s: seq<K>, key: K)
    requires NoDup(s) && key !in s
    ensures Remove(Add(s, key), key) == s
  {
    NoDupAppend(s, key);
    RemoveFirstAppended(s, key);
  }
}
