/** useTrackedEffect (src/hooks/useTrackedEffect/index.ts): an effect that
    is told which dependencies changed. A ref keeps the deps of the last
    run; each run compares them with the current ones element by element,
    with `Object.is` modelled as equality of values. An absent deps list
    is `None`. */
module TrackedEffect {
  import opened Js

  /** `deps2?.[idx]`: `undefined` when the list is absent or too short. */
  function DepAt(deps: Option<seq<Value>>, idx: nat): Value {
    if deps.Some? && idx < |deps.value| then deps.value[idx] else Undefined
  }

  /** The indices below `n` where the two lists differ, ascending: the
      `map` to `idx` or -1 followed by the `filter`. */
  function ChangedBelow(deps1: seq<Value>, deps2: Option<seq<Value>>, n: nat): (r: seq<nat>)
    requires n <= |deps1|
    ensures forall k | 0 <= k < |r| :: r[k] < n
    ensures forall k, l | 0 <= k < l < |r| :: r[k] < r[l]
    ensures forall i | 0 <= i < n :: i in r <==> deps1[i] != DepAt(deps2, i)
  {
    if n == 0 then []
    else ChangedBelow(deps1, deps2, n - 1) + (if deps1[n - 1] != DepAt(deps2, n - 1) then [n - 1] else [])
  }

  /** `diffTwoDeps(deps1, deps2)`: with `deps1` present, the indices of
      `deps1` whose element differs from `deps2`'s, ascending; without it,
      every index of `deps2`; with neither, none. */
  function DiffTwoDeps(deps1: Option<seq<Value>>, deps2: Option<seq<Value>>): (r: seq<nat>)
    ensures deps1.Some? ==> forall i | 0 <= i < |deps1.value| :: i in r <==> deps1.value[i] != DepAt(deps2, i)
    ensures deps1.Some? ==> forall k | 0 <= k < |r| :: r[k] < |deps1.value|
    ensures forall k, l | 0 <= k < l < |r| :: r[k] < r[l]
    ensures deps1.None? && deps2.Some? ==> r == seq(|deps2.value|, i => i)
    ensures deps1.None? && deps2.None? ==> r == []
  {
    if deps1.Some? then ChangedBelow(deps1.value, deps2, |deps1.value|)
    else if deps2.Some? then seq(|deps2.value|, i => i)
    else []
  }

  /** Lists that agree below `n` report no change below `n`. */
  lemma {:induction false} NoneChanged(deps1: seq<Value>, deps2: Option<seq<Value>>, n: nat)
    requires n <= |deps1| && forall i | 0 <= i < n :: deps1[i] == DepAt(deps2, i)
    ensures ChangedBelow(deps1, deps2, n) == []
  {
    if n > 0 {
      NoneChanged(deps1, deps2, n - 1);
    }
  }

  /** Two element-wise equal lists report no change. */
  lemma SameDepsNoChanges(deps: seq<Value>)
    ensures DiffTwoDeps(Some(deps), Some(deps)) == []
  {
    NoneChanged(deps, Some(deps), |deps|);
  }

  /** A list longer than the previous one reports at most the previous
      indices: the extra elements are never compared. */
  lemma GrownDepsOnlyComparesOld(deps1: seq<Value>, deps2: seq<Value>)
    requires |deps1| < |deps2| && deps2[..|deps1|] == deps1
    ensures DiffTwoDeps(Some(deps1), Some(deps2)) == []
  {
    assert forall i | 0 <= i < |deps1| :: deps2[..|deps1|][i] == deps2[i];
    NoneChanged(deps1, Some(deps2), |deps1|);
  }

  class TrackedEffect {
    /** `previousDepsRef.current`: absent before the first run. */
    var previousDeps: Option<seq<Value>>

    constructor ()
      ensures previousDeps == None
    {
      previousDeps := None;
    }

    /** One run of the effect with the current `deps`: the effect is given
        the changed indices, the previous deps and the current deps, and
        the current deps become the previous ones. */
    method Run(deps: Option<seq<Value>>) returns (changes: seq<nat>, previous: Option<seq<Value>>, current: Option<seq<Value>>)
      modifies this
      ensures changes == DiffTwoDeps(old(previousDeps), deps)
      ensures previous == old(previousDeps) && current == deps
      ensures previousDeps == deps
    {
      changes := DiffTwoDeps(previousDeps, deps);
      previous := previousDeps;
      previousDeps := deps;
      current := deps;
    }
  }

  /** Deps `[1, 2]` and then `[1, 3]`: the first run reports both indices
      and no previous deps, the second reports index 1 and the first
      list. */
  method TwoRuns() returns (first: seq<nat>, second: seq<nat>, previous: Option<seq<Value>>)
    ensures first == [0, 1] && second == [1] && previous == Some([Num(1), Num(2)])
  {
    var e := new TrackedEffect();
    var p0, c0, p1, c1;
    first, p0, c0 := e.Run(Some([Num(1), Num(2)]));
    second, p1, c1 := e.Run(Some([Num(1), Num(3)]));
    previous := p1;
    assert ChangedBelow([Num(1), Num(2)], Some([Num(1), Num(3)]), 1) == [];
    assert seq(2, i => i) == [0, 1];
  }
}
