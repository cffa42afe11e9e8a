/** useVirtualList (src/hooks/useVirtualList/index.ts): which slice of a
    long list to render for a scroll position, and the wrapper's height and
    top margin. Scroll positions and sizes are integers; `useSize`, the DOM
    element lookups and the style writes are outside the model: the
    container's `scrollTop` and `clientHeight` are parameters. */
module VirtualList {
  import opened Js

  /** `itemHeight: number | ((index, data) => number)`. */
  datatype ItemHeight<-T> = Fixed(h: int) | Variable(f: (int, T) -> int)

  /** What `calculateRange` reads from the container element. */
  datatype Container = Container(scrollTop: int, clientHeight: int)

  /** The wrapper style `{ height, marginTop }` (without the `"px"`). */
  datatype WrapperStyle = WrapperStyle(height: int, marginTop: int)

  /** A height function is only ever called with positive fixed heights. */
  predicate Usable<T>(itemHeight: ItemHeight<T>) {
    itemHeight.Fixed? ==> itemHeight.h > 0
  }

  /** The height of every item, in list order. */
  function Heights<T>(list: seq<T>, f: (int, T) -> int): (hs: seq<int>)
    ensures |hs| == |list| && forall i | 0 <= i < |list| :: hs[i] == f(i, list[i])
  {
    seq(|list|, i requires 0 <= i < |list| => f(i, list[i]))
  }

  /** `s.reduce((sum, h) => sum + h, 0)`. */
  function Sum(s: seq<int>): int {
    if s == [] then 0 else Sum(s[..|s| - 1]) + s[|s| - 1]
  }

  /** One more item adds its height to the running sum. */
  lemma SumStep(s: seq<int>, a: nat, b: nat)
    requires a <= b < |s|
    ensures Sum(s[a..b + 1]) == Sum(s[a..b]) + s[b]
  {
    assert s[a..b + 1][..b - a] == s[a..b];
  }

  /** The sum of a prefix is the sum of a shorter prefix plus the rest. */
  lemma {:induction false} SumSplit(s: seq<int>, i: nat, j: nat)
    requires i <= j <= |s|
    ensures Sum(s[..j]) == Sum(s[..i]) + Sum(s[i..j])
    decreases j - i
  {
    if i < j {
      SumSplit(s, i, j - 1);
      SumStep(s, i, j - 1);
      SumStep(s, 0, j - 1);
      assert s[0..j] == s[..j] && s[0..j - 1] == s[..j - 1];
    } else {
      assert s[i..j] == [];
    }
  }

  /** With heights that are not negative, the sum grows with the prefix. */
  lemma {:induction false} SumMonotone(s: seq<int>, i: nat, j: nat)
    requires i <= j <= |s| && forall k | 0 <= k < |s| :: s[k] >= 0
    ensures Sum(s[..i]) <= Sum(s[..j])
    decreases j - i
  {
    if i < j {
      SumMonotone(s, i, j - 1);
      SumStep(s, 0, j - 1);
      assert s[0..j] == s[..j] && s[0..j - 1] == s[..j - 1];
    }
  }

  /** The running sum of the heights from `from` through item `i`. */
  function RunningSum(hs: seq<int>, from: nat, i: nat): int
    requires from <= i < |hs|
  {
    Sum(hs[from..i + 1])
  }

  /** What `getOffset(scrollTop)` returns. With a fixed height it is one
      more than the number of items wholly above `scrollTop`. Otherwise it
      is one more than the index of the first item whose running sum
      reaches `scrollTop`, and 1 when no item reaches it. */
  ghost predicate IsOffset<T>(list: seq<T>, itemHeight: ItemHeight<T>, scrollTop: int, r: int)
    requires Usable(itemHeight)
  {
    match itemHeight
    case Fixed(h) => r == scrollTop / h + 1
    case Variable(f) =>
      var hs := Heights(list, f);
      && 1 <= r <= |list| + 1
      && (forall i | 0 <= i < r - 1 :: RunningSum(hs, 0, i) < scrollTop)
      && ((r - 1 < |list| && RunningSum(hs, 0, r - 1) >= scrollTop)
          || (r == 1 && forall i | 0 <= i < |list| :: RunningSum(hs, 0, i) < scrollTop))
  }

  /** `endIndex` of the loop in `getVisibleCount` when `fromIndex` is a
      list index: the first item from `fromIndex` on whose running sum
      reaches `containerHeight`, or the last item. */
  ghost predicate IsVisibleEnd(hs: seq<int>, containerHeight: int, from: nat, e: int) {
    && from <= e < |hs|
    && (forall i | from <= i < e :: RunningSum(hs, from, i) < containerHeight)
    && (RunningSum(hs, from, e) >= containerHeight || e == |hs| - 1)
  }

  /** What `getVisibleCount(containerHeight, fromIndex)` returns, with
      `endIndex` starting at `fromIndex`: `Math.ceil(containerHeight / h)`
      for a fixed height; otherwise the distance from `fromIndex` to the
      item that fills the container, and 0 past the last item. */
  ghost predicate IsVisibleCount<T>(list: seq<T>, itemHeight: ItemHeight<T>, containerHeight: int, from: nat, r: int)
    requires Usable(itemHeight)
  {
    match itemHeight
    case Fixed(h) => r == Ceil(containerHeight, h)
    case Variable(f) =>
      if from >= |list| then r == 0 else IsVisibleEnd(Heights(list, f), containerHeight, from, from + r)
  }

  /** What `getVisibleCount` returns as written, with `endIndex` starting
      at 0: the same, except that past the last item a variable height
      gives `-from`. */
  ghost predicate IsVisibleCountAsWritten<T>(list: seq<T>, itemHeight: ItemHeight<T>, containerHeight: int, from: nat, r: int)
    requires Usable(itemHeight)
  {
    match itemHeight
    case Fixed(h) => r == Ceil(containerHeight, h)
    case Variable(f) =>
      if from >= |list| then r + from == 0 else IsVisibleEnd(Heights(list, f), containerHeight, from, from + r)
  }

  /** The two counts differ only for a variable height past the last item. */
  lemma AsWrittenCountAgrees<T>(list: seq<T>, itemHeight: ItemHeight<T>, containerHeight: int, from: nat, r: int)
    requires Usable(itemHeight) && IsVisibleCountAsWritten(list, itemHeight, containerHeight, from, r)
    ensures itemHeight.Fixed? || from < |list| ==> IsVisibleCount(list, itemHeight, containerHeight, from, r)
    ensures itemHeight.Variable? && from >= |list| ==> r + from == 0
  {
  }

  /** Both searches find one answer: the first index that qualifies. */
  lemma SearchesAreDeterministic<T>(list: seq<T>, itemHeight: ItemHeight<T>, st: int, ch: int, from: nat, a: int, b: int)
    requires Usable(itemHeight)
    ensures IsOffset(list, itemHeight, st, a) && IsOffset(list, itemHeight, st, b) ==> a == b
    ensures itemHeight.Variable? ==>
      (IsVisibleEnd(Heights(list, itemHeight.f), ch, from, a) && IsVisibleEnd(Heights(list, itemHeight.f), ch, from, b) ==> a == b)
  {
  }

  /** `getOffset(scrollTop)`: the loop stops at the first item whose
      running sum reaches `scrollTop`. */
  method GetOffset<T>(list: seq<T>, itemHeight: ItemHeight<T>, scrollTop: int) returns (r: int)
    requires Usable(itemHeight)
    ensures IsOffset(list, itemHeight, scrollTop, r)
  {
    if itemHeight.Fixed? {
      return scrollTop / itemHeight.h + 1;
    }
    ghost var hs := Heights(list, itemHeight.f);
    var sum := 0;
    var offset := 0;
    var i := 0;
    while i < |list|
      invariant 0 <= i <= |list| && offset == 0
      invariant sum == Sum(hs[0..i])
      invariant forall j | 0 <= j < i :: RunningSum(hs, 0, j) < scrollTop
    {
      var height := itemHeight.f(i, list[i]);
      SumStep(hs, 0, i);
      sum := sum + height;
      if sum >= scrollTop {
        offset := i;
        break;
      }
      i := i + 1;
    }
    r := offset + 1;
  }

  /** The loop of `getVisibleCount` from `fromIndex`, with `endIndex`
      starting at `initialEnd`. */
  method VisibleEnd<T>(list: seq<T>, f: (int, T) -> int, containerHeight: int, fromIndex: nat, initialEnd: int) returns (endIndex: int)
    ensures fromIndex >= |list| ==> endIndex == initialEnd
    ensures fromIndex < |list| ==> IsVisibleEnd(Heights(list, f), containerHeight, fromIndex, endIndex)
  {
    ghost var hs := Heights(list, f);
    var sum := 0;
    endIndex := initialEnd;
    if fromIndex >= |list| {
      return;
    }
    var i := fromIndex;
    while i < |list|
      invariant fromIndex <= i <= |list|
      invariant i == fromIndex ==> endIndex == initialEnd
      invariant i > fromIndex ==> endIndex == i - 1
      invariant sum == Sum(hs[fromIndex..i])
      invariant forall j | fromIndex <= j < i :: RunningSum(hs, fromIndex, j) < containerHeight
    {
      var height := f(i, list[i]);
      SumStep(hs, fromIndex, i);
      sum := sum + height;
      endIndex := i;
      if sum >= containerHeight {
        break;
      }
      i := i + 1;
    }
  }

  /** `getVisibleCount(containerHeight, fromIndex)` as written: `endIndex`
      starts at 0, so when `fromIndex` is already past the last item the
      count is `-fromIndex`. */
  method GetVisibleCountAsWritten<T>(list: seq<T>, itemHeight: ItemHeight<T>, containerHeight: int, fromIndex: nat) returns (r: int)
    requires Usable(itemHeight)
    ensures IsVisibleCountAsWritten(list, itemHeight, containerHeight, fromIndex, r)
    ensures itemHeight.Fixed? ==> r == Ceil(containerHeight, itemHeight.h)
    ensures itemHeight.Variable? && fromIndex >= |list| ==> r + fromIndex == 0
    ensures itemHeight.Variable? && fromIndex < |list| ==> IsVisibleCount(list, itemHeight, containerHeight, fromIndex, r)
  {
    if itemHeight.Fixed? {
      return Ceil(containerHeight, itemHeight.h);
    }
    var endIndex := VisibleEnd(list, itemHeight.f, containerHeight, fromIndex, 0);
    r := endIndex - fromIndex;
  }

  /** `getVisibleCount` with `endIndex` starting at `fromIndex`. */
  method GetVisibleCount<T>(list: seq<T>, itemHeight: ItemHeight<T>, containerHeight: int, fromIndex: nat) returns (r: int)
    requires Usable(itemHeight)
    ensures IsVisibleCount(list, itemHeight, containerHeight, fromIndex, r)
    ensures itemHeight.Variable? ==> 0 <= r
  {
    if itemHeight.Fixed? {
      return Ceil(containerHeight, itemHeight.h);
    }
    var endIndex := VisibleEnd(list, itemHeight.f, containerHeight, fromIndex, fromIndex);
    r := endIndex - fromIndex;
  }

  /** `getDistanceTop(index)`: `index * h`, or the summed heights of
      `list.slice(0, index)`. */
  function DistanceTop<T>(list: seq<T>, itemHeight: ItemHeight<T>, index: int): (r: int)
    ensures itemHeight.Variable? ==> r == Sum(Heights(list, itemHeight.f)[..RelIndex(index, |list|)])
    ensures itemHeight.Variable? && NonNegativeHeights(list, itemHeight) ==> 0 <= r <= TotalHeight(list, itemHeight)
  {
    match itemHeight
    case Fixed(h) => index * h
    case Variable(f) =>
      var hs := Heights(list, f);
      var b := RelIndex(index, |hs|);
      assert hs[0..b] == hs[..b] && hs[..|hs|] == hs;
      SumPrefixBounds(hs, b);
      Sum(Slice(hs, 0, index))
  }

  /** `totalHeight`: `list.length * h`, or the summed heights of the list;
      it is not negative when no item height is. */
  function TotalHeight<T>(list: seq<T>, itemHeight: ItemHeight<T>): (r: int)
    ensures (itemHeight.Fixed? ==> itemHeight.h >= 0) && NonNegativeHeights(list, itemHeight) ==> r >= 0
  {
    match itemHeight
    case Fixed(h) => |list| * h
    case Variable(f) =>
      var hs := Heights(list, f);
      assert hs[..|hs|] == hs;
      SumPrefixBounds(hs, |hs|);
      Sum(hs)
  }

  /** A prefix of heights that are not negative sums to between 0 and the
      whole sum. */
  lemma SumPrefixBounds(s: seq<int>, b: nat)
    requires b <= |s|
    ensures (forall k | 0 <= k < |s| :: s[k] >= 0) ==> 0 <= Sum(s[..b]) <= Sum(s)
  {
    if forall k | 0 <= k < |s| :: s[k] >= 0 {
      assert s[..0] == [] && s[..|s|] == s;
      SumMonotone(s, 0, b);
      SumMonotone(s, b, |s|);
    }
  }

  /** The distance to an in-range index is the sum of the heights above it,
      and the distance past the last item is the total height. */
  lemma DistanceTopIsPrefix<T>(list: seq<T>, itemHeight: ItemHeight<T>, index: nat)
    requires index <= |list|
    ensures itemHeight.Variable? ==> DistanceTop(list, itemHeight, index) == Sum(Heights(list, itemHeight.f)[..index])
    ensures DistanceTop(list, itemHeight, |list|) == TotalHeight(list, itemHeight)
  {
    if itemHeight.Variable? {
      var hs := Heights(list, itemHeight.f);
      assert hs[0..index] == hs[..index] && hs[..|hs|] == hs;
    }
  }

  /** `calculateRange`'s window: `start = max(0, offset - overscan)` and
      `end = min(list.length, offset + visibleCount + overscan)`. */
  function Window(len: nat, offset: int, visibleCount: int, overscan: int): (r: (int, int))
    ensures r.0 >= 0 && r.1 <= len
    ensures offset - overscan >= 0 ==> r.0 == offset - overscan
    ensures offset + visibleCount + overscan <= len ==> r.1 == offset + visibleCount + overscan
  {
    (if offset - overscan > 0 then offset - overscan else 0,
     if len < offset + visibleCount + overscan then len else offset + visibleCount + overscan)
  }

  /** The `fromIndex` passed to `getVisibleCount`: the offset, which is
      only negative for a fixed height, where it is not read. */
  function FromIndex(offset: int): nat {
    if offset < 0 then 0 else offset
  }

  /** `list.slice(start, end).map((ele, index) => ({ data: ele, index: index + start }))`. */
  function Tagged<T>(list: seq<T>, start: nat, end: int): (r: seq<(int, T)>)
    ensures |r| == |Slice(list, start, end)|
    ensures start < end <= |list| ==> |r| == end - start
    ensures forall k | 0 <= k < |r| :: start + k < |list| && r[k] == (start + k, list[start + k])
  {
    var items := Slice(list, start, end);
    assert |items| > 0 ==> start < |list| && items == list[start..RelIndex(end, |list|)];
    seq(|items|, k requires 0 <= k < |items| => (start + k, items[k]))
  }

  /** Item `k` overlaps the container's visible band. */
  predicate Visible<T>(list: seq<T>, itemHeight: ItemHeight<T>, c: Container, k: int) {
    && 0 <= k < |list|
    && DistanceTop(list, itemHeight, k) < c.scrollTop + c.clientHeight
    && DistanceTop(list, itemHeight, k + 1) > c.scrollTop
  }

  /** No item has a negative height. */
  predicate NonNegativeHeights<T>(list: seq<T>, itemHeight: ItemHeight<T>) {
    itemHeight.Variable? ==> forall i | 0 <= i < |list| :: itemHeight.f(i, list[i]) >= 0
  }

  lemma MulCancel(a: int, b: int, h: int)
    requires h > 0 && a * h < b * h
    ensures a < b
  {
    if a >= b {
      MulMonotone(b, a, h);
    }
  }

  /** With a fixed height, an item that overlaps the band lies between
      `offset - 1` and `offset + visibleCount - 1`. */
  lemma FixedWindowCovers(h: int, st: int, ch: int, k: int)
    requires h > 0 && k * h < st + ch && (k + 1) * h > st
    ensures st / h <= k < st / h + 1 + Ceil(ch, h)
  {
    var q := st / h;
    var vc := Ceil(ch, h);
    assert st == q * h + st % h && 0 <= st % h < h;
    MulCancel(q, k + 1, h);
    assert (q + 1 + vc) * h == q * h + h + vc * h;
    MulCancel(k, q + 1 + vc, h);
  }

  /** With variable heights, an item that overlaps the band is not above
      the item before the offset, and that item reaches `scrollTop`. */
  lemma VariableStartCovers<T>(list: seq<T>, f: (int, T) -> int, c: Container, offset: int, k: int)
    requires Visible(list, Variable(f), c, k)
    requires IsOffset(list, Variable(f), c.scrollTop, offset)
    ensures 1 <= offset <= k + 1 && Sum(Heights(list, f)[..offset]) >= c.scrollTop
    ensures Sum(Heights(list, f)[..k]) < c.scrollTop + c.clientHeight
  {
    var hs := Heights(list, f);
    DistanceTopIsPrefix(list, Variable(f), k);
    DistanceTopIsPrefix(list, Variable(f), k + 1);
    assert hs[0..k + 1] == hs[..k + 1];
    assert RunningSum(hs, 0, k) > c.scrollTop;
    assert hs[0..offset] == hs[..offset];
  }

  /** With heights that are not negative, an item below the one that fills
      the band from `from` starts below the band. */
  lemma VariableEndCovers(hs: seq<int>, st: int, ch: int, from: nat, e: int, k: nat)
    requires forall i | 0 <= i < |hs| :: hs[i] >= 0
    requires 1 <= from < |hs| && k < |hs| && Sum(hs[..from]) >= st && Sum(hs[..k]) < st + ch
    requires IsVisibleEnd(hs, ch, from, e)
    ensures k <= e
  {
    if k > e {
      assert RunningSum(hs, from, e) >= ch;
      SumSplit(hs, from, e + 1);
      SumMonotone(hs, e + 1, k);
    }
  }

  /** With variable heights that are not negative, an item that overlaps
      the band lies between `offset - 1` and the item that fills it. */
  lemma VariableWindowCovers<T>(list: seq<T>, f: (int, T) -> int, c: Container, offset: int, vc: int, k: int)
    requires NonNegativeHeights(list, Variable(f)) && Visible(list, Variable(f), c, k)
    requires IsOffset(list, Variable(f), c.scrollTop, offset)
    requires IsVisibleCount(list, Variable(f), c.clientHeight, FromIndex(offset), vc)
    ensures offset - 1 <= k && (k < |list| <= offset || k <= offset + vc)
  {
    VariableStartCovers(list, f, c, offset, k);
    if offset < |list| {
      VariableEndCovers(Heights(list, f), c.scrollTop, c.clientHeight, offset, offset + vc, k);
    }
  }

  /** Every item that overlaps the container's visible band is rendered,
      provided `overscan` is at least 1: the offset is one past the first
      overlapping item, so the overscan is what brings that item in. */
  lemma WindowCoversItem<T>(list: seq<T>, itemHeight: ItemHeight<T>, c: Container, overscan: int, offset: int, vc: int, k: int)
    requires Usable(itemHeight) && NonNegativeHeights(list, itemHeight) && overscan >= 1
    requires IsOffset(list, itemHeight, c.scrollTop, offset)
    requires IsVisibleCount(list, itemHeight, c.clientHeight, FromIndex(offset), vc)
    requires Visible(list, itemHeight, c, k)
    ensures Window(|list|, offset, vc, overscan).0 <= k < Window(|list|, offset, vc, overscan).1
  {
    match itemHeight
    case Fixed(h) =>
      assert (k + 1) * h == DistanceTop(list, itemHeight, k + 1);
      FixedWindowCovers(h, c.scrollTop, c.clientHeight, k);
    case Variable(f) =>
      VariableWindowCovers(list, f, c, offset, vc, k);
  }

  /** `WindowCoversItem` for every overlapping item at once. */
  lemma WindowCoversViewport<T>(list: seq<T>, itemHeight: ItemHeight<T>, c: Container, overscan: int, offset: int, vc: int)
    requires Usable(itemHeight) && NonNegativeHeights(list, itemHeight) && overscan >= 1
    requires IsOffset(list, itemHeight, c.scrollTop, offset)
    requires IsVisibleCount(list, itemHeight, c.clientHeight, FromIndex(offset), vc)
    ensures forall k | Visible(list, itemHeight, c, k) ::
      Window(|list|, offset, vc, overscan).0 <= k < Window(|list|, offset, vc, overscan).1
  {
    forall k | Visible(list, itemHeight, c, k)
      ensures Window(|list|, offset, vc, overscan).0 <= k < Window(|list|, offset, vc, overscan).1
    {
      WindowCoversItem(list, itemHeight, c, overscan, offset, vc, k);
    }
  }

  class VirtualList<T> {
    const list: seq<T>
    const itemHeight: ItemHeight<T>
    /** `overscan = 5` by default. */
    const overscan: int
    /** `targetList`: the items to render, with their indices. */
    var targetList: seq<(int, T)>
    /** `wrapperStyle`: `{}` until the first calculation. */
    var wrapperStyle: Option<WrapperStyle>
    /** `scrollTriggerByScrollToFunc`. */
    var scrollTriggerByScrollToFunc: bool

    constructor (list: seq<T>, itemHeight: ItemHeight<T>, overscan: Option<int>)
      requires Usable(itemHeight)
      ensures this.list == list && this.itemHeight == itemHeight && this.overscan == overscan.GetOr(5)
      ensures targetList == [] && wrapperStyle == None && !scrollTriggerByScrollToFunc
    {
      this.list := list;
      this.itemHeight := itemHeight;
      this.overscan := overscan.GetOr(5);
      targetList := [];
      wrapperStyle := None;
      scrollTriggerByScrollToFunc := false;
    }

    /** The state `calculateRange` leaves for container `c`: the offset and
        the visible count (as written) are the searched ones, the window
        around the offset is rendered, tagged with the items' indices, the
        wrapper's top margin and height add up to the total height, and
        with an overscan of at least one every item overlapping the
        viewport is rendered, unless variable heights put the offset past
        the last item, where the count is negative. */
    ghost predicate Shows(c: Container, offset: int, visibleCount: int, start: int, end: int)
      requires Usable(itemHeight)
      reads this
    {
      && IsOffset(list, itemHeight, c.scrollTop, offset)
      && IsVisibleCountAsWritten(list, itemHeight, c.clientHeight, FromIndex(offset), visibleCount)
      && (start, end) == Window(|list|, offset, visibleCount, overscan)
      && wrapperStyle == Some(WrapperStyle(TotalHeight(list, itemHeight) - DistanceTop(list, itemHeight, start), DistanceTop(list, itemHeight, start)))
      && targetList == Tagged(list, start, end)
      && (overscan >= 1 && NonNegativeHeights(list, itemHeight) && (itemHeight.Fixed? || FromIndex(offset) < |list|) ==>
            forall k | Visible(list, itemHeight, c, k) :: start <= k < end)
    }

    /** `calculateRange()`: without a container nothing changes. Otherwise
        the window around the offset is rendered, tagged with the items'
        indices, and the wrapper's top margin and height add up to the
        total height. The offset, the visible count and the window are
        returned so callers can state what the window covers. */
    method CalculateRange(container: Option<Container>) returns (offset: int, visibleCount: int, start: int, end: int)
      requires Usable(itemHeight)
      modifies this
      ensures container.None? ==> targetList == old(targetList) && wrapperStyle == old(wrapperStyle)
      ensures container.Some? ==> Shows(container.value, offset, visibleCount, start, end)
      ensures scrollTriggerByScrollToFunc == old(scrollTriggerByScrollToFunc)
    {
      offset, visibleCount, start, end := 0, 0, 0, 0;
      if container.Some? {
        offset, visibleCount, start, end := ComputeRange(container.value);
        var top := DistanceTop(list, itemHeight, start);
        wrapperStyle := Some(WrapperStyle(TotalHeight(list, itemHeight) - top, top));
        targetList := Tagged(list, start, end);
      }
    }

    /** The search part of `calculateRange()` for container `c`: the
        offset, the visible count (as written) from the item at the offset,
        and the window around them, which with an overscan of at least one
        covers every item that overlaps the viewport whenever the offset
        is a list index or the height is fixed. */
    method ComputeRange(c: Container) returns (offset: int, visibleCount: int, start: int, end: int)
      requires Usable(itemHeight)
      ensures IsOffset(list, itemHeight, c.scrollTop, offset)
      ensures IsVisibleCountAsWritten(list, itemHeight, c.clientHeight, FromIndex(offset), visibleCount)
      ensures (start, end) == Window(|list|, offset, visibleCount, overscan)
      ensures overscan >= 1 && NonNegativeHeights(list, itemHeight) && (itemHeight.Fixed? || FromIndex(offset) < |list|) ==>
        forall k | Visible(list, itemHeight, c, k) :: start <= k < end
    {
      offset := GetOffset(list, itemHeight, c.scrollTop);
      visibleCount := GetVisibleCountAsWritten(list, itemHeight, c.clientHeight, FromIndex(offset));
      var w := Window(|list|, offset, visibleCount, overscan);
      start, end := w.0, w.1;
      if overscan >= 1 && NonNegativeHeights(list, itemHeight) && (itemHeight.Fixed? || FromIndex(offset) < |list|) {
        AsWrittenCountAgrees(list, itemHeight, c.clientHeight, FromIndex(offset), visibleCount);
        WindowCoversViewport(list, itemHeight, c, overscan, offset, visibleCount);
      }
    }

    /** The resize effect: while the container has no width or no height
        (before `useSize` measures it, or when either is 0) nothing
        changes; otherwise the range is recalculated. */
    method OnResize(size: Option<(int, int)>, container: Option<Container>) returns (offset: int, visibleCount: int, start: int, end: int)
      requires Usable(itemHeight)
      modifies this
      ensures size.None? || size.value.0 == 0 || size.value.1 == 0 || container.None? ==>
        targetList == old(targetList) && wrapperStyle == old(wrapperStyle)
      ensures size.Some? && size.value.0 != 0 && size.value.1 != 0 && container.Some? ==>
        Shows(container.value, offset, visibleCount, start, end)
      ensures scrollTriggerByScrollToFunc == old(scrollTriggerByScrollToFunc)
    {
      offset, visibleCount, start, end := 0, 0, 0, 0;
      if size.None? || size.value.0 == 0 || size.value.1 == 0 {
        return;
      }
      offset, visibleCount, start, end := CalculateRange(container);
    }

    /** The container's scroll listener: the first scroll event after
        `scrollTo` only clears the flag; any other one recalculates. */
    method OnScroll(container: Option<Container>) returns (offset: int, visibleCount: int, start: int, end: int)
      requires Usable(itemHeight)
      modifies this
      ensures !scrollTriggerByScrollToFunc
      ensures old(scrollTriggerByScrollToFunc) || container.None? ==>
        targetList == old(targetList) && wrapperStyle == old(wrapperStyle)
      ensures !old(scrollTriggerByScrollToFunc) && container.Some? ==>
        Shows(container.value, offset, visibleCount, start, end)
    {
      offset, visibleCount, start, end := 0, 0, 0, 0;
      if scrollTriggerByScrollToFunc {
        scrollTriggerByScrollToFunc := false;
        return;
      }
      offset, visibleCount, start, end := CalculateRange(container);
    }

    /** `scrollTo(index)`: with a container, sets the flag, scrolls to the
        item's distance from the top and recalculates with that position. */
    method ScrollTo(index: int, clientHeight: Option<int>) returns (scrollTop: Option<int>)
      requires Usable(itemHeight)
      modifies this
      ensures clientHeight.None? ==>
        scrollTop == None && targetList == old(targetList) && wrapperStyle == old(wrapperStyle)
        && scrollTriggerByScrollToFunc == old(scrollTriggerByScrollToFunc)
      ensures clientHeight.Some? ==> scrollTop == Some(DistanceTop(list, itemHeight, index)) && scrollTriggerByScrollToFunc
      ensures clientHeight.Some? ==> exists o, v, b, e :: Shows(Container(scrollTop.value, clientHeight.value), o, v, b, e)
    {
      if clientHeight.None? {
        return None;
      }
      scrollTriggerByScrollToFunc := true;
      var top := DistanceTop(list, itemHeight, index);
      var o, v, b, e := CalculateRange(Some(Container(top, clientHeight.value)));
      scrollTop := Some(top);
    }
  }

  /** The height of an item whose data is its height. */
  function HeightOf(i: int, x: int): int {
    x
  }

  /** The negative visible count of `getVisibleCount` as written: the last
      of two items (heights 10 and 100) overlaps a 50-high container
      scrolled to 60, yet with `overscan` 1 the window is empty. With the
      default overscan of 5 the same happens with ten items. */
  method TallLastItemRendersNothing() returns (offset: int, visibleCount: int, start: int, end: int)
    ensures Visible([10, 100], Variable(HeightOf), Container(60, 50), 1)
    ensures offset == 2 && visibleCount == -2
    ensures start == 1 && end == 1
  {
    var list := [10, 100];
    var ih := Variable(HeightOf);
    var hs := Heights(list, ih.f);
    assert hs == [10, 100];
    assert hs[0..1] == [10] && hs[0..2] == hs;
    assert Sum([10]) == 10 && Sum([10, 100]) == 110;
    assert RunningSum(hs, 0, 0) == 10 && RunningSum(hs, 0, 1) == 110;
    offset := GetOffset(list, ih, 60);
    visibleCount := GetVisibleCountAsWritten(list, ih, 50, FromIndex(offset));
    var w := Window(|list|, offset, visibleCount, 1);
    start, end := w.0, w.1;
    assert Slice(hs, 0, 1) == [10] && Slice(hs, 0, 2) == hs;
  }

  /** With `endIndex` starting at `fromIndex` the same position renders the
      last item: the window is `[1, 2)`. */
  method TallLastItemRendered() returns (start: int, end: int, rendered: seq<(int, int)>)
    ensures start == 1 && end == 2 && rendered == [(1, 100)]
  {
    var list := [10, 100];
    var ih := Variable(HeightOf);
    var hs := Heights(list, ih.f);
    assert hs == [10, 100];
    assert hs[0..1] == [10] && hs[0..2] == hs;
    assert Sum([10]) == 10 && Sum([10, 100]) == 110;
    assert hs[1..2] == [100] && Sum([100]) == 100;
    assert RunningSum(hs, 0, 0) == 10 && RunningSum(hs, 0, 1) == 110 && RunningSum(hs, 1, 1) == 100;
    var offset := GetOffset(list, ih, 60);
    var visibleCount := GetVisibleCount(list, ih, 50, FromIndex(offset));
    var w := Window(|list|, offset, visibleCount, 1);
    start, end := w.0, w.1;
    rendered := Tagged(list, start, end);
    assert Slice(list, 1, 2) == [100];
  }

  /** With `overscan` 0 the partly scrolled-off first item is not rendered:
      ten-high items scrolled to 5 give offset 1, so the window starts at 1. */
  method ZeroOverscanSkipsTopItem() returns (start: int, end: int)
    ensures Visible([0, 0, 0], Fixed(10), Container(5, 20), 0)
    ensures start == 1 && end == 3
  {
    var offset := GetOffset([0, 0, 0], Fixed(10), 5);
    var visibleCount := GetVisibleCount([0, 0, 0], Fixed(10), 20, FromIndex(offset));
    var w := Window(3, offset, visibleCount, 0);
    start, end := w.0, w.1;
  }
}
