/** usePrevious (src/hooks/usePrevious/index.ts): two refs, the previous
    and the current state. A render whose state `shouldUpdate` accepts
    moves the current one to previous; the hook returns previous. An
    unset ref is `None`, `undefined` in the source. */
module Previous {
  import opened Js

  /** `defaultShouldUpdate`: the state is not the same value as the current
      one; `Object.is` is equality of model values. */
  function DefaultShouldUpdate<T(==)>(cur: Option<T>, next: T): (r: bool)
    ensures r <==> cur != Some(next)
  {
    !(cur.Some? && cur.value == next)
  }

  class Previous<T> {
    const shouldUpdate: (Option<T>, T) -> bool
    /** `prevRef.current`. */
    var prev: Option<T>
    /** `curRef.current`. */
    var cur: Option<T>

    /** The refs start unset. */
    constructor (shouldUpdate: (Option<T>, T) -> bool)
      ensures this.shouldUpdate == shouldUpdate && prev == None && cur == None
    {
      this.shouldUpdate := shouldUpdate;
      prev := None;
      cur := None;
    }

    /** One render with `state`: when `shouldUpdate(cur, state)` holds the
        current value becomes the previous one and `state` the current
        one; otherwise both stay. The result is the previous value. */
    method Render(state: T) returns (r: Option<T>)
      modifies this
      ensures shouldUpdate(old(cur), state) ==> prev == old(cur) && cur == Some(state)
      ensures !shouldUpdate(old(cur), state) ==> prev == old(prev) && cur == old(cur)
      ensures r == prev
    {
      if shouldUpdate(cur, state) {
        prev := cur;
        cur := Some(state);
      }
      r := prev;
    }
  }

  /** The value before the last run of equal states: `None` while every
      state so far is the same. */
  function LastDistinct<T(==)>(states: seq<T>): (r: Option<T>)
    ensures r.Some? ==> r.value in states && r.value != states[|states| - 1]
  {
    if |states| <= 1 then None
    else if states[|states| - 2] != states[|states| - 1] then Some(states[|states| - 2])
    else
      var init := states[..|states| - 1];
      assert init[|init| - 1] == states[|states| - 1];
      LastDistinct(init)
  }

  /** A state repeated at the end leaves the previous value alone; a new
      state makes the last one previous. */
  lemma LastDistinctStep<T>(states: seq<T>, x: T)
    requires states != []
    ensures x == states[|states| - 1] ==> LastDistinct(states + [x]) == LastDistinct(states)
    ensures x != states[|states| - 1] ==> LastDistinct(states + [x]) == Some(states[|states| - 1])
  {
    assert (states + [x])[..|states|] == states;
  }

  /** With the default `shouldUpdate`, rendering `states` one after another
      returns, at each render, the value before the last run of equal
      states; a repeated state never becomes its own previous value. */
  method RenderAll<T(==)>(states: seq<T>) returns (results: seq<Option<T>>)
    ensures |results| == |states|
    ensures forall i | 0 <= i < |states| :: results[i] == LastDistinct(states[..i + 1])
    ensures forall i | 0 <= i < |states| :: results[i] != Some(states[i])
  {
    var p := new Previous(DefaultShouldUpdate);
    results := [];
    for i := 0 to |states|
      invariant p.shouldUpdate == DefaultShouldUpdate
      invariant |results| == i
      invariant p.cur == (if i == 0 then None else Some(states[i - 1]))
      invariant p.prev == LastDistinct(states[..i])
      invariant forall j | 0 <= j < i :: results[j] == LastDistinct(states[..j + 1])
    {
      if i > 0 {
        LastDistinctStep(states[..i], states[i]);
      }
      assert states[..i + 1] == states[..i] + [states[i]];
      var r := p.Render(states[i]);
      results := results + [r];
    }
  }

  /** The first render returns nothing; renders with 1, 1, 2, 2, 3 return
      nothing, nothing, 1, 1, 2. */
  method Sequence() returns (results: seq<Option<int>>)
    ensures results == [None, None, Some(1), Some(1), Some(2)]
  {
    var states := [1, 1, 2, 2, 3];
    assert states[..1] == [1] && states[..2] == [1, 1];
    assert LastDistinct(states[..2]) == None;
    assert states[..3] == [1, 1, 2] && states[..4] == [1, 1, 2, 2] && states[..5] == states;
    assert LastDistinct(states[..3]) == Some(1);
    assert LastDistinct(states[..4]) == Some(1);
    results := RenderAll(states);
  }
}
