/** useSetState (src/hooks/useSetState/index.ts): an object state whose
    setter merges a patch into it, like a class component's `setState`. The
    state is the object's own properties. */
module SetState {
  import opened Js

  /** `patch`: an object (or any value), or a function of the previous state. */
  datatype Patch = Plain(v: Value) | Updater(f: map<string, Value> -> Value)

  /** `setMergeState(patch)`: a function patch is applied to the previous
      state; a falsy result leaves the state as it was; otherwise the
      patch's properties override and every other key keeps its value. */
  function Merge(prev: map<string, Value>, patch: Patch): (r: map<string, Value>)
    ensures var p := if patch.Updater? then patch.f(prev) else patch.v;
      && (!Truthy(p) ==> r == prev)
      && (Truthy(p) ==> r.Keys == prev.Keys + FieldsOf(p).Keys)
      && (Truthy(p) ==> forall k | k in FieldsOf(p) :: r[k] == FieldsOf(p)[k])
      && (forall k | k in prev && k !in FieldsOf(p) :: r[k] == prev[k])
  {
    var newState := if patch.Updater? then patch.f(prev) else patch.v;
    if Truthy(newState) then prev + FieldsOf(newState) else prev
  }

  /** Merging the same object patch twice is the same as merging it once. */
  lemma MergeIdempotent(prev: map<string, Value>, v: Value)
    ensures Merge(Merge(prev, Plain(v)), Plain(v)) == Merge(prev, Plain(v))
  {
  }

  /** `null`, `undefined` and other falsy patches change nothing. */
  lemma FalsyPatchKeepsState(prev: map<string, Value>)
    ensures Merge(prev, Plain(Null)) == prev && Merge(prev, Plain(Undefined)) == prev
    ensures Merge(prev, Updater(_ => Null)) == prev
  {
  }

  /** A patch can only add or override keys: the keys of the state only grow. */
  lemma {:induction false} KeysOnlyGrow(prev: map<string, Value>, patches: seq<Patch>)
    ensures prev.Keys <= MergeAll(prev, patches).Keys
    decreases |patches|
  {
    if patches != [] {
      KeysOnlyGrow(Merge(prev, patches[0]), patches[1..]);
    }
  }

  /** Successive `setMergeState` calls. */
  function MergeAll(prev: map<string, Value>, patches: seq<Patch>): map<string, Value>
    decreases |patches|
  {
    if patches == [] then prev else MergeAll(Merge(prev, patches[0]), patches[1..])
  }
}
