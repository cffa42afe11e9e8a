/** JavaScript values and the handful of built-in operations (truthiness,
    `Array.prototype.splice`, `slice`, `indexOf`) whose exact edge behaviour
    the hooks depend on. */
module Js {

  datatype Option<+T> = None | Some(value: T) {
    function GetOr(default: T): T {
      if Some? then value else default
    }
  }

  /** A JavaScript value. Functions, promises and other objects that the
      source compares by reference are `Ref(id)`; arrays and plain objects are
      compared structurally in this model. */
  datatype Value =
    | Undefined
    | Null
    | Bool(b: bool)
    | Num(n: int)
    | Str(s: string)
    | Arr(items: seq<Value>)
    | Obj(fields: map<string, Value>)
    | Ref(id: nat)

  /** `Boolean(v)`: the falsy values are undefined, null, false, 0 and "". */
  predicate Truthy(v: Value) {
    match v
    case Undefined => false
    case Null => false
    case Bool(b) => b
    case Num(n) => n != 0
    case Str(s) => s != ""
    case _ => true
  }

  /** The own enumerable properties that an object spread `{...v}` copies
      (only plain objects contribute properties in this model). */
  function FieldsOf(v: Value): map<string, Value> {
    if v.Obj? then v.fields else map[]
  }

  /** `o[name]` on a plain object, `undefined` when the property is missing. */
  function Field(v: Value, name: string): Value {
    if v.Obj? && name in v.fields then v.fields[name] else Undefined
  }

  /** `s[i]` on an array, `undefined` outside the array. */
  function At<T>(s: seq<T>, i: int, outside: T): T {
    if 0 <= i < |s| then s[i] else outside
  }

  /** The start position that `splice` and `slice` derive from a relative
      index: negative indices count from the end, and the result is clamped
      to `[0, len]`. */
  function RelIndex(i: int, len: nat): (k: nat)
    ensures k <= len
    ensures 0 <= i <= len ==> k == i
    ensures i > len ==> k == len
    ensures i < 0 && -i <= len ==> k == len + i
    ensures i < 0 && -i > len ==> k == 0
  {
    if i < 0 then (if len + i < 0 then 0 else len + i)
    else if i > len then len
    else i
  }

  /** `s.slice(start, end)`. */
  function Slice<T>(s: seq<T>, start: int, end: int): (r: seq<T>)
    ensures NoDup(s) ==> NoDup(r)
    ensures forall y | y in r :: y in s
  {
    var a := RelIndex(start, |s|);
    var b := RelIndex(end, |s|);
    assert a < b ==> forall i | 0 <= i < b - a :: s[a..b][i] == s[a + i];
    if a < b then s[a..b] else []
  }

  /** The array `s.splice(start, 0, ...items)` leaves behind. */
  function SpliceInsert<T>(s: seq<T>, start: int, items: seq<T>): (r: seq<T>)
    ensures |r| == |s| + |items|
    ensures 0 <= start <= |s| ==>
      r[..start] == s[..start] && r[start..start + |items|] == items && r[start + |items|..] == s[start..]
  {
    var k := RelIndex(start, |s|);
    assert (s[..k] + items + s[k..])[k + |items|..] == s[k..];
    s[..k] + items + s[k..]
  }

  /** Inside the array, `splice(start, 0, ...items)` puts the items at `start`. */
  lemma SpliceInsertInside<T>(s: seq<T>, start: int, items: seq<T>)
    requires 0 <= start <= |s|
    ensures SpliceInsert(s, start, items) == s[..start] + items + s[start..]
  {
  }

  /** The array `s.splice(start, count)` leaves behind. */
  function SpliceRemove<T>(s: seq<T>, start: int, count: nat): (r: seq<T>)
    ensures |r| <= |s|
    ensures var k := RelIndex(start, |s|);
      |r| == |s| - ((if k + count <= |s| then k + count else |s|) - k)
    ensures 0 <= start < |s| && count == 1 ==> r == s[..start] + s[start + 1..] && |r| == |s| - 1
    ensures NoDup(s) ==> NoDup(r)
    ensures forall y | y in r :: y in s
  {
    var k := RelIndex(start, |s|);
    var e := if k + count <= |s| then k + count else |s|;
    NoDupDrop(s, k, e);
    s[..k] + s[e..]
  }

  /** Dropping the slice `s[a..b]` keeps a repeat-free sequence repeat-free. */
  lemma NoDupDrop<T>(s: seq<T>, a: nat, b: nat)
    requires a <= b <= |s|
    ensures NoDup(s) ==> NoDup(s[..a] + s[b..])
    ensures forall y | y in s[..a] + s[b..] :: y in s
  {
    var r := s[..a] + s[b..];
    assert forall i | 0 <= i < |r| :: r[i] == s[if i < a then i else i - a + b];
  }

  /** Inserting an element not yet present keeps a sequence repeat-free. */
  lemma NoDupInsert<T>(s: seq<T>, start: int, x: T)
    requires NoDup(s) && x !in s
    ensures NoDup(SpliceInsert(s, start, [x]))
    ensures forall y :: y in SpliceInsert(s, start, [x]) <==> y in s || y == x
  {
    var k := RelIndex(start, |s|);
    var r := s[..k] + [x] + s[k..];
    assert forall i | 0 <= i < |r| :: r[i] == (if i < k then s[i] else if i == k then x else s[i - 1]);
    forall y | y in s
      ensures y in r
    {
      var i :| 0 <= i < |s| && s[i] == y;
      assert r[if i < k then i else i + 1] == y;
    }
  }

  /** `s.indexOf(x)`: the first position holding `x`, or -1. */
  function IndexOf<T(==)>(s: seq<T>, x: T): (r: int)
    ensures -1 <= r < |s|
    ensures r == -1 <==> x !in s
    ensures r >= 0 ==> s[r] == x && x !in s[..r]
  {
    if s == [] then -1
    else if s[0] == x then 0
    else
      var r := IndexOf(s[1..], x);
      assert s[1..][..if r < 0 then 0 else r] == s[1..if r < 0 then 1 else r + 1];
      if r < 0 then -1 else r + 1
  }

  /** No element occurs twice. */
  predicate NoDup<T(==)>(s: seq<T>) {
    forall i, j | 0 <= i < j < |s| :: s[i] != s[j]
  }

  /** The guarded removal `i = s.indexOf(x); if (i > -1) s.splice(i, 1)`. */
  function RemoveFirst<T(==)>(s: seq<T>, x: T): (r: seq<T>)
    ensures x !in s ==> r == s
    ensures x in s ==> |r| == |s| - 1
    ensures NoDup(s) ==> NoDup(r) && x !in r && forall y :: y in s && y != x ==> y in r
    ensures forall y | y in r :: y in s
  {
    var i := IndexOf(s, x);
    if i < 0 then s
    else
      assert s == s[..i] + [s[i]] + s[i + 1..];
      s[..i] + s[i + 1..]
  }

  /** Removing the first `x` when its position is known. */
  lemma RemoveFirstAt<T>(s: seq<T>, x: T, i: nat)
    requires i < |s| && s[i] == x && x !in s[..i]
    ensures RemoveFirst(s, x) == s[..i] + s[i + 1..]
  {
  }

  /** `s.splice(s.indexOf(x), 1)` with no presence check: when `x` is absent
      the index is -1 and the last element is removed instead. */
  function SpliceIndexOf<T(==)>(s: seq<T>, x: T): (r: seq<T>)
    ensures x in s ==> r == RemoveFirst(s, x)
    ensures x !in s && s != [] ==> r == s[..|s| - 1]
    ensures s == [] ==> r == []
    ensures forall y | y in r :: y in s
    ensures NoDup(s) ==> NoDup(r)
  {
    var r := SpliceRemove(s, IndexOf(s, x), 1);
    assert x !in s && s != [] ==> r == s[..|s| - 1];
    r
  }

  lemma NoDupAppend<T>(s: seq<T>, x: T)
    requires NoDup(s) && x !in s
    ensures NoDup(s + [x])
  {
  }

  lemma RemoveFirstAppended<T>(s: seq<T>, x: T)
    requires x !in s
    ensures RemoveFirst(s + [x], x) == s
  {
    assert x in s + [x];
    assert forall j | 0 <= j < |s| :: (s + [x])[j] != x;
    assert IndexOf(s + [x], x) == |s|;
    assert (s + [x])[..|s|] == s;
  }

  /** `set.add(x)` on an insertion-ordered `Set` held as its iteration
      order: a present element keeps its place, a new one goes last. */
  function SetAdd<T(==)>(s: seq<T>, x: T): (r: seq<T>)
    ensures x in s ==> r == s
    ensures x !in s ==> r == s + [x]
    ensures x in r && forall y | y in s :: y in r
    ensures forall y | y in r :: y in s || y == x
    ensures NoDup(s) ==> NoDup(r)
  {
    if x in s then s else s + [x]
  }

  /** `Array.from(new Set(s))`: the first occurrence of every element, in
      order. */
  function SetFrom<T(==)>(s: seq<T>): (r: seq<T>)
    ensures NoDup(r)
    ensures (forall y | y in r :: y in s) && (forall y | y in s :: y in r)
    ensures |r| <= |s|
  {
    if s == [] then [] else SetAdd(SetFrom(s[..|s| - 1]), s[|s| - 1])
  }

  /** A repeat-free array goes through a `Set` unchanged. */
  lemma {:induction false} SetFromNoDup<T>(s: seq<T>)
    requires NoDup(s)
    ensures SetFrom(s) == s
  {
    if s != [] {
      var init := s[..|s| - 1];
      assert NoDup(init);
      SetFromNoDup(init);
      assert s[|s| - 1] !in init;
      assert init + [s[|s| - 1]] == s;
    }
  }

  /** `Math.ceil(a / b)` for a non-zero integer divisor. */
  function Ceil(a: int, b: int): (r: int)
    requires b != 0
    ensures b > 0 ==> (r - 1) * b < a <= r * b
    ensures b < 0 ==> r * b <= a < (r - 1) * b
  {
    if b > 0 then -((-a) / b) else -(a / (-b))
  }

  /** Multiplying by a non-negative factor keeps the order. */
  lemma MulMonotone(a: int, b: int, k: nat)
    requires a <= b
    ensures a * k <= b * k
  {
  }
}
