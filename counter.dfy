/** useCounter (src/hooks/useCounter/index.ts): one number cell whose every
    write goes through the clamp `getTargetValue`. */
module Counter {
  import opened Js

  /** `{ min?, max? }`; an absent bound is `None`. */
  datatype Options = Options(min: Option<int>, max: Option<int>)

  /** `number | ((c: number) => number)`. */
  datatype ValueParam = Number(n: int) | Updater(f: int -> int)

  /** The bounds are consistent when no lower bound exceeds the upper one. */
  predicate Consistent(o: Options) {
    o.min.Some? && o.max.Some? ==> o.min.value <= o.max.value
  }

  /** `val` lies inside every bound that is given. */
  predicate Within(val: int, o: Options) {
    (o.min.Some? ==> o.min.value <= val) && (o.max.Some? ==> val <= o.max.value)
  }

  /** `getTargetValue(val, options)`: `max` is applied first, then `min`, so
      with crossed bounds the lower one wins. */
  function TargetValue(val: int, o: Options): (r: int)
    ensures o.min.Some? ==> r >= o.min.value
    ensures Consistent(o) ==> Within(r, o)
    ensures Within(val, o) ==> r == val
    ensures Consistent(o) && o.max.Some? && val > o.max.value ==> r == o.max.value
    ensures o.min.Some? && val < o.min.value ==> r == o.min.value
    ensures !Consistent(o) ==> r == o.min.value
  {
    var capped := if o.max.Some? && o.max.value < val then o.max.value else val;
    if o.min.Some? && capped < o.min.value then o.min.value else capped
  }

  /** Clamping a clamped value changes nothing, whatever the bounds. */
  lemma TargetValueIdempotent(val: int, o: Options)
    ensures TargetValue(TargetValue(val, o), o) == TargetValue(val, o)
  {
    if !Consistent(o) {
      assert TargetValue(o.min.value, o) == o.min.value;
    }
  }

  /** The value a `setValue(value)` call writes, given the current value. */
  function Target(value: ValueParam, c: int, o: Options): (r: int)
    ensures value.Number? ==> r == TargetValue(value.n, o)
    ensures value.Updater? ==> r == TargetValue(value.f(c), o)
  {
    TargetValue(if value.Number? then value.n else value.f(c), o)
  }

  class Counter {
    /** The hook's `initialValue`, 0 by default. */
    const initialValue: int
    const options: Options
    var current: int

    /** Every value the counter holds went through the clamp. */
    ghost predicate Valid()
      reads this
    {
      TargetValue(current, options) == current
    }

    /** `useCounter(initialValue = 0, options = {})`: the state starts at the
        clamped initial value. */
    constructor (initialValue: Option<int>, options: Options)
      ensures this.initialValue == initialValue.GetOr(0) && this.options == options
      ensures current == TargetValue(initialValue.GetOr(0), options)
      ensures Valid()
    {
      this.initialValue := initialValue.GetOr(0);
      this.options := options;
      current := TargetValue(initialValue.GetOr(0), options);
      new;
      TargetValueIdempotent(initialValue.GetOr(0), options);
    }

    /** `setValue(value)`: a number is clamped, an updater is applied to the
        current value and its result clamped. */
    method SetValue(value: ValueParam)
      modifies this
      ensures current == Target(value, old(current), options)
      ensures Valid()
    {
      current := Target(value, current, options);
      TargetValueIdempotent(if value.Number? then value.n else value.f(old(current)), options);
    }

    /** `inc(delta = 1)`. */
    method Inc(delta: Option<int>)
      modifies this
      ensures current == TargetValue(old(current) + delta.GetOr(1), options)
      ensures Valid()
    {
      var d := delta.GetOr(1);
      SetValue(Updater(c => c + d));
    }

    /** `dec(delta = 1)`. */
    method Dec(delta: Option<int>)
      modifies this
      ensures current == TargetValue(old(current) - delta.GetOr(1), options)
      ensures Valid()
    {
      var d := delta.GetOr(1);
      SetValue(Updater(c => c - d));
    }

    /** `set(value)`: the same as `setValue`. */
    method Set(value: ValueParam)
      modifies this
      ensures current == Target(value, old(current), options)
      ensures Valid()
    {
      SetValue(value);
    }

    /** `reset()`: back to the clamped initial value. */
    method Reset()
      modifies this
      ensures current == TargetValue(initialValue, options)
      ensures Valid()
    {
      SetValue(Number(initialValue));
    }
  }

  /** With bounds [0, 3] a run of increments stops at 3 and one decrement
      from there gives 2; reset returns to the clamped initial value. */
  method IncrementsStopAtMax() returns (afterIncs: int, afterDec: int, afterReset: int)
    ensures afterIncs == 3 && afterDec == 2 && afterReset == 3
  {
    var c := new Counter(Some(7), Options(Some(0), Some(3)));
    c.Inc(None);
    c.Inc(Some(5));
    afterIncs := c.current;
    c.Dec(None);
    afterDec := c.current;
    c.Reset();
    afterReset := c.current;
  }
}
