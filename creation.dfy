/** useCreation (src/hooks/useCreation/index.ts): a ref holding the deps,
    the created object and an `initialized` flag. The factory runs on the
    first render and whenever `depsAreSame` rejects the new deps against
    the stored ones. The factory is code the model cannot see: each render
    is given the object the factory would return, and reports whether it
    ran. `depsAreSame` is a parameter. */
module Creation {
  import opened Js

  class Creation<D, T> {
    const depsAreSame: (D, D) -> bool
    /** `current.deps`. */
    var deps: D
    /** `current.obj`: `None` while still `undefined`. */
    var obj: Option<T>
    /** `current.initialized`. */
    var initialized: bool

    ghost predicate Valid()
      reads this
    {
      initialized ==> obj.Some?
    }

    /** `useRef({ deps, obj: undefined, initialized: false })` on the first
        render. */
    constructor (depsAreSame: (D, D) -> bool, deps: D)
      ensures Valid()
      ensures this.depsAreSame == depsAreSame && this.deps == deps && obj == None && !initialized
    {
      this.depsAreSame := depsAreSame;
      this.deps := deps;
      obj := None;
      initialized := false;
    }

    /** One render with `deps`; `made` is what `factory()` returns if it is
        called. Uninitialized or with deps `depsAreSame` rejects, the
        factory runs, and the deps and the object are stored; otherwise
        nothing changes. The result is the stored object. */
    method Render(deps: D, made: T) returns (r: T, ran: bool)
      requires Valid()
      modifies this
      ensures Valid() && initialized
      ensures ran <==> !old(initialized) || !depsAreSame(old(this.deps), deps)
      ensures ran ==> this.deps == deps && obj == Some(made)
      ensures !ran ==> this.deps == old(this.deps) && obj == old(obj)
      ensures obj == Some(r)
    {
      ran := !initialized || !depsAreSame(this.deps, deps);
      if ran {
        this.deps := deps;
        obj := Some(made);
        initialized := true;
      }
      r := obj.value;
    }
  }

  /** The index of the render whose factory call produced the object in use
      after rendering `ds`: the first render creates, and a later render
      creates again exactly when its deps are rejected against those of the
      render that created last. */
  function LastCreation<D>(same: (D, D) -> bool, ds: seq<D>): (j: nat)
    requires ds != []
    ensures j < |ds|
  {
    if |ds| == 1 then 0
    else
      var j := LastCreation(same, ds[..|ds| - 1]);
      if same(ds[j], ds[|ds| - 1]) then j else |ds| - 1
  }

  lemma LastCreationStep<D>(same: (D, D) -> bool, ds: seq<D>, d: D)
    requires ds != []
    ensures var j := LastCreation(same, ds);
      LastCreation(same, ds + [d]) == if same(ds[j], d) then j else |ds|
  {
    assert (ds + [d])[..|ds|] == ds;
  }

  /** With a `depsAreSame` that accepts equal deps, renders with unchanged
      deps never call the factory again: the first object stays. */
  lemma {:induction false} UnchangedDepsCreateOnce<D>(same: (D, D) -> bool, ds: seq<D>)
    requires ds != [] && forall i | 0 <= i < |ds| :: ds[i] == ds[0] && same(ds[i], ds[0])
    ensures LastCreation(same, ds) == 0
  {
    if |ds| > 1 {
      var init := ds[..|ds| - 1];
      assert forall i | 0 <= i < |init| :: init[i] == ds[i];
      UnchangedDepsCreateOnce(same, init);
    }
  }

  /** Rendering with the deps `ds[i]` and factory results `made[i]` one
      after another: each render returns the object made by the last
      creation so far, and the factory runs at render 0 and at every
      render whose deps are rejected against the stored ones. */
  method RenderAll<D, T>(same: (D, D) -> bool, ds: seq<D>, made: seq<T>) returns (results: seq<T>, runs: seq<bool>)
    requires ds != [] && |made| == |ds|
    ensures |results| == |ds| && |runs| == |ds|
    ensures forall i | 0 <= i < |ds| :: results[i] == made[LastCreation(same, ds[..i + 1])]
    ensures forall i | 0 <= i < |ds| :: runs[i] <==> LastCreation(same, ds[..i + 1]) == i
  {
    var c := new Creation(same, ds[0]);
    results, runs := [], [];
    for i := 0 to |ds|
      invariant c.depsAreSame == same && c.Valid()
      invariant |results| == i && |runs| == i
      invariant i == 0 ==> !c.initialized
      invariant i > 0 ==>
        (c.initialized && c.deps == ds[LastCreation(same, ds[..i])] && c.obj == Some(made[LastCreation(same, ds[..i])]))
      invariant forall k | 0 <= k < i :: results[k] == made[LastCreation(same, ds[..k + 1])]
      invariant forall k | 0 <= k < i :: runs[k] <==> LastCreation(same, ds[..k + 1]) == k
    {
      assert ds[..i + 1] == ds[..i] + [ds[i]];
      if i > 0 {
        LastCreationStep(same, ds[..i], ds[i]);
      }
      var r, ran := c.Render(ds[i], made[i]);
      results, runs := results + [r], runs + [ran];
    }
  }

  /** Deps 1, 1, 2 with factory results 10, 20, 30 under equality: the
      second render keeps 10 without calling the factory, the third makes
      30. */
  method SameThenChanged() returns (results: seq<int>, runs: seq<bool>)
    ensures results == [10, 10, 30] && runs == [true, false, true]
  {
    var same := (a: int, b: int) => a == b;
    var ds := [1, 1, 2];
    assert ds[..1] == [1] && ds[..2] == [1, 1] && ds[..3] == ds;
    assert LastCreation(same, ds[..2]) == 0;
    assert LastCreation(same, ds[..3]) == 2;
    results, runs := RenderAll(same, ds, [10, 20, 30]);
  }
}
