/** useHistoryTravel (src/hooks/useHistoryTravel/index.ts): an undo/redo
    timeline `past ++ [present] ++ future` with a movable present. */
module HistoryTravel {
  import opened Js

  /** `dumpIndex(step, arr)`: the position `go(step)` lands on inside `arr`;
      `step - 1` forward, `len + step` backward, clamped into the array. */
  function DumpIndex(step: int, len: nat): (i: nat)
    ensures len > 0 ==> i < len
    ensures len == 0 ==> i == 0
    ensures 0 < step <= len ==> i == step - 1
    ensures step > len > 0 ==> i == len - 1
    ensures step < 0 && -step <= len ==> i == len + step
    ensures step < 0 && -step > len ==> i == 0
  {
    var index := if step > 0 then step - 1 else len + step;
    var index := if index >= len - 1 then len - 1 else index;
    if index < 0 then 0 else index
  }

  /** `split(step, arr)`: the element landed on, with what lies before and
      after it; the three reassemble into `arr`. */
  function Split(step: int, arr: seq<Value>): (r: (seq<Value>, Value, seq<Value>))
    requires |arr| > 0
    ensures r.0 + [r.1] + r.2 == arr
    ensures |r.0| == DumpIndex(step, |arr|)
  {
    var i := DumpIndex(step, |arr|);
    assert arr[..i] + [arr[i]] + arr[i + 1..] == arr;
    (arr[..i], arr[i], arr[i + 1..])
  }

  class HistoryTravel {
    var present: Value
    var past: seq<Value>
    var future: seq<Value>
    /** `initialValueRef.current`. */
    var initial: Value
    const maxLength: int

    /** The whole timeline, oldest first. */
    function Timeline(): seq<Value>
      reads this
    {
      past + [present] + future
    }

    /** `useHistoryTravel(initialValue, maxLength = 0)`. */
    constructor (initialValue: Value, maxLength: Option<int>)
      ensures present == initialValue && initial == initialValue && past == [] && future == []
      ensures this.maxLength == maxLength.GetOr(0)
    {
      present := initialValue;
      initial := initialValue;
      past := [];
      future := [];
      this.maxLength := maxLength.GetOr(0);
    }

    /** `reset()` or `reset(x)`: with an argument it first becomes the
        stored initial value; the present is the initial value and both
        sides of the timeline are emptied. */
    method Reset(arg: Option<Value>)
      modifies this
      ensures initial == arg.GetOr(old(initial))
      ensures present == initial && past == [] && future == []
    {
      initial := arg.GetOr(initial);
      present := initial;
      past := [];
      future := [];
    }

    /** `setValue(v)` (`updateValue`): the old present joins the past, whose
        oldest entry is spliced off once it is longer than a positive
        `maxLength`; `v` is the present and the future is dropped. */
    method SetValue(v: Value)
      modifies this
      ensures present == v && future == [] && initial == old(initial)
      ensures var pushed := old(past) + [old(present)];
        past == (if maxLength > 0 && |pushed| > maxLength then pushed[1..] else pushed)
      ensures past != [] && past[|past| - 1] == old(present)
      ensures maxLength > 0 && |old(past)| <= maxLength ==> |past| <= maxLength
    {
      var pushed := past + [present];
      if maxLength > 0 && |pushed| > maxLength {
        pushed := SpliceRemove(pushed, 0, 1);
      }
      past := pushed;
      present := v;
      future := [];
    }

    /** `_forward(step)`: nothing with an empty future; otherwise the
        present moves `step` entries ahead (at most to the end). */
    method Forward(step: int)
      modifies this
      ensures Timeline() == old(Timeline()) && initial == old(initial)
      ensures old(future) == [] ==> present == old(present) && past == old(past) && future == old(future)
      ensures old(future) != [] ==> |past| == |old(past)| + 1 + DumpIndex(step, |old(future)|)
    {
      if future == [] {
        return;
      }
      var (before, current, after) := Split(step, future);
      past := past + [present] + before;
      present := current;
      future := after;
    }

    /** `_backward(step)`: nothing with an empty past; otherwise the present
        moves back to position `DumpIndex(step, |past|)` of the past. */
    method Backward(step: int)
      modifies this
      ensures Timeline() == old(Timeline()) && initial == old(initial)
      ensures old(past) == [] ==> present == old(present) && past == old(past) && future == old(future)
      ensures old(past) != [] ==> |past| == DumpIndex(step, |old(past)|)
    {
      if past == [] {
        return;
      }
      var (before, current, after) := Split(step, past);
      future := after + [present] + future;
      past := before;
      present := current;
    }

    /** `go(step)`: nothing for 0, forward for a positive step, backward for
        a negative one. Within range the present moves exactly `step`
        places along the unchanged timeline. */
    method Go(step: int)
      modifies this
      ensures Timeline() == old(Timeline()) && initial == old(initial)
      ensures step == 0 || (step > 0 && old(future) == []) || (step < 0 && old(past) == []) ==>
        present == old(present) && past == old(past) && future == old(future)
      ensures 0 < step <= |old(future)| ==> |past| == |old(past)| + step && present == old(future)[step - 1]
      ensures 0 < -step <= |old(past)| ==> |past| == |old(past)| + step && present == old(past)[|old(past)| + step]
    {
      if step == 0 {
        return;
      }
      if step > 0 {
        Forward(step);
        if step <= |old(future)| {
          assert Timeline()[|past|] == present;
          assert old(Timeline())[|old(past)| + step] == old(future)[step - 1];
        }
      } else {
        Backward(step);
        if -step <= |old(past)| {
          assert Timeline()[|past|] == present;
          assert old(Timeline())[|old(past)| + step] == old(past)[|old(past)| + step];
        }
      }
    }

    /** `back()`: `go(-1)`. */
    method Back()
      modifies this
      ensures Timeline() == old(Timeline()) && initial == old(initial)
      ensures old(past) != [] ==>
        past == old(past)[..|old(past)| - 1] && present == old(past)[|old(past)| - 1] && future == [old(present)] + old(future)
      ensures old(past) == [] ==> present == old(present) && past == old(past) && future == old(future)
    {
      Go(-1);
      if old(past) != [] {
        var n := |old(past)|;
        assert old(past) == old(past)[..n - 1] + [old(past)[n - 1]];
        SameTimeline(past, present, future, old(past)[..n - 1], old(past)[n - 1], [old(present)] + old(future));
      }
    }

    /** `forward()`: `go(1)`. */
    method Forward1()
      modifies this
      ensures Timeline() == old(Timeline()) && initial == old(initial)
      ensures old(future) != [] ==>
        past == old(past) + [old(present)] && present == old(future)[0] && future == old(future)[1..]
      ensures old(future) == [] ==> present == old(present) && past == old(past) && future == old(future)
    {
      Go(1);
      if old(future) != [] {
        assert old(future) == [old(future)[0]] + old(future)[1..];
        SameTimeline(past, present, future, old(past) + [old(present)], old(future)[0], old(future)[1..]);
      }
    }
  }

  /** Two splits of one timeline at the same position agree. */
  lemma SameTimeline(a: seq<Value>, x: Value, b: seq<Value>, c: seq<Value>, y: Value, d: seq<Value>)
    requires a + [x] + b == c + [y] + d && |a| == |c|
    ensures a == c && x == y && b == d
  {
    assert a == (a + [x] + b)[..|a|];
    assert c == (c + [y] + d)[..|c|];
    assert x == (a + [x] + b)[|a|];
    assert b == (a + [x] + b)[|a| + 1..];
    assert d == (c + [y] + d)[|c| + 1..];
  }

  /** Several `setValue`s with `maxLength = 2` keep the two most recent
      earlier values; `back()` then `forward()` restores the present. */
  method BoundedUndo() returns (past: seq<Value>, afterBack: Value, afterForward: Value)
    ensures past == [Num(2), Num(3)] && afterBack == Num(3) && afterForward == Num(4)
  {
    var h := new HistoryTravel(Num(1), Some(2));
    h.SetValue(Num(2));
    h.SetValue(Num(3));
    h.SetValue(Num(4));
    past := h.past;
    h.Back();
    afterBack := h.present;
    h.Forward1();
    afterForward := h.present;
  }
}
