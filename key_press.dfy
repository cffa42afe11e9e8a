/** The key matcher of useKeyPress (src/hooks/useKeyPress/index.ts): the
    alias table, the modifier tests, the exact-match count, the per-filter
    guard and the firing decision. Listener registration is not modelled. */
module KeyPress {
  import opened Js

  datatype EventType = KeyDown | KeyUp

  /** The fields of a `KeyboardEvent` the matcher reads. */
  datatype KeyEvent = KeyEvent(
    kind: EventType, key: string, keyCode: int,
    ctrlKey: bool, shiftKey: bool, altKey: bool, metaKey: bool)

  /** `KeyType = number | string`. */
  datatype KeyType = KeyCode(code: int) | KeyName(name: string) {
    function ToValue(): Value {
      if KeyCode? then Num(code) else Str(name)
    }
  }

  /** A `KeyFilter`, or any other value passed in its place. */
  datatype KeyFilter =
    | FilterKey(k: KeyType)
    | FilterList(items: seq<KeyType>)
    | FilterFn(f: KeyEvent -> Value)
    | FilterOther(v: Value)

  /** An entry of `aliasKeyCodeMap`: a code, or the list that `meta` maps to. */
  datatype Alias = Code(n: int) | Codes(ns: seq<int>)

  /** The one-character entries of `aliasKeyCodeMap`: `'0'`..`'9'` are
      48..57 and `a`..`z` are 65..90. */
  function CharAlias(c: char): Option<int> {
    if '0' <= c <= '9' then Some(48 + (c as int - '0' as int))
    else if 'a' <= c <= 'z' then Some(65 + (c as int - 'a' as int))
    else None
  }

  /** The numbered entries: `numpad0`..`numpad9` are 96..105 and
      `f1`..`f12` are 112..123. */
  function NumberedAlias(name: string): Option<int> {
    if |name| == 7 && name[..6] == "numpad" && '0' <= name[6] <= '9' then Some(96 + (name[6] as int - '0' as int))
    else if |name| == 2 && name[0] == 'f' && '1' <= name[1] <= '9' then Some(111 + (name[1] as int - '0' as int))
    else if |name| == 3 && name[..2] == "f1" && '0' <= name[2] <= '2' then Some(121 + (name[2] as int - '0' as int))
    else None
  }

  /** The remaining named entries of `aliasKeyCodeMap`, without `meta`. */
  function NamedAlias(name: string): Option<int> {
    match name
    case "backspace" => Some(8)
    case "tab" => Some(9)
    case "enter" => Some(13)
    case "shift" => Some(16)
    case "ctrl" => Some(17)
    case "alt" => Some(18)
    case "pausebreak" => Some(19)
    case "capslock" => Some(20)
    case "esc" => Some(27)
    case "space" => Some(32)
    case "pageup" => Some(33)
    case "pagedown" => Some(34)
    case "end" => Some(35)
    case "home" => Some(36)
    case "leftarrow" => Some(37)
    case "uparrow" => Some(38)
    case "rightarrow" => Some(39)
    case "downarrow" => Some(40)
    case "insert" => Some(45)
    case "delete" => Some(46)
    case "leftwindowkey" => Some(91)
    case "rightwindowkey" => Some(92)
    case "selectkey" => Some(93)
    case "multiply" => Some(106)
    case "add" => Some(107)
    case "subtract" => Some(109)
    case "decimalpoint" => Some(110)
    case "divide" => Some(111)
    case "numlock" => Some(144)
    case "scrolllock" => Some(145)
    case "semicolon" => Some(186)
    case "equalsign" => Some(187)
    case "comma" => Some(188)
    case "dash" => Some(189)
    case "period" => Some(190)
    case "forwardslash" => Some(191)
    case "graveaccent" => Some(192)
    case "openbracket" => Some(219)
    case "backslash" => Some(220)
    case "closebracket" => Some(221)
    case "singlequote" => Some(222)
    case _ => None
  }

  /** The `meta` alias: `[91, 93]` on Apple devices, `[91, 92]` elsewhere. */
  function MetaCodes(apple: bool): seq<int> {
    if apple then [91, 93] else [91, 92]
  }

  /** `aliasKeyCodeMap[name]`: every entry but `meta` is a single code. */
  function AliasOf(name: string, apple: bool): (r: Option<Alias>)
    ensures name == "meta" ==> r == Some(Codes(MetaCodes(apple)))
    ensures name != "meta" ==> r.None? || r.value.Code?
  {
    if name == "meta" then Some(Codes(MetaCodes(apple)))
    else
      var code := if |name| == 1 then CharAlias(name[0])
        else if NumberedAlias(name).Some? then NumberedAlias(name)
        else NamedAlias(name);
      if code.Some? then Some(Code(code.value)) else None
  }

  /** The key codes `countKeyByEvent` treats as modifiers are the aliases of
      `shift`, `ctrl`, `alt`, `leftwindowkey` and `rightwindowkey`. */
  lemma ModifierCodes(apple: bool)
    ensures AliasOf("shift", apple) == Some(Code(16)) && AliasOf("ctrl", apple) == Some(Code(17))
    ensures AliasOf("alt", apple) == Some(Code(18))
    ensures AliasOf("leftwindowkey", apple) == Some(Code(91)) && AliasOf("rightwindowkey", apple) == Some(Code(92))
  {
  }

  /** `modifierKey[name](event)` for the four modifier names; `None` for any
      other name. On key-up, `meta` tests the released key's code against the
      `meta` alias instead of `metaKey`. */
  function Modifier(name: string, e: KeyEvent, apple: bool): (r: Option<bool>)
    ensures r.Some? <==> name in {"ctrl", "shift", "alt", "meta"}
    ensures name == "meta" && e.kind == KeyUp ==> r == Some(e.keyCode in MetaCodes(apple))
    ensures name == "meta" && e.kind == KeyDown ==> r == Some(e.metaKey)
  {
    match name
    case "ctrl" => Some(e.ctrlKey)
    case "shift" => Some(e.shiftKey)
    case "alt" => Some(e.altKey)
    case "meta" => Some(if e.kind == KeyUp then e.keyCode in MetaCodes(apple) else e.metaKey)
    case _ => None
  }

  function B2I(b: bool): nat {
    if b then 1 else 0
  }

  /** `countKeyByEvent(event)`: the pressed modifiers, plus one for the key
      itself unless its code is a modifier code (16, 17, 18, 91, 92). */
  function CountKeyByEvent(e: KeyEvent, apple: bool): (r: nat)
    ensures r <= 5
    ensures e.keyCode in {16, 17, 18, 91, 92} ==> r <= 4
    ensures e.keyCode !in {16, 17, 18, 91, 92} ==> r >= 1
    ensures r == 0 <==>
      e.keyCode in {16, 17, 18, 91, 92} && !e.ctrlKey && !e.shiftKey && !e.altKey && Modifier("meta", e, apple) == Some(false)
  {
    var modifiers := B2I(Modifier("ctrl", e, apple).value) + B2I(Modifier("shift", e, apple).value)
      + B2I(Modifier("alt", e, apple).value) + B2I(Modifier("meta", e, apple).value);
    if e.keyCode in [16, 17, 18, 91, 92] then modifiers else modifiers + 1
  }

  /** ASCII `toLowerCase` of one character. */
  function LowerChar(c: char): char {
    if 'A' <= c <= 'Z' then (c as int + 32) as char else c
  }

  /** ASCII `toLowerCase`, character by character. */
  function Lower(s: string): (r: string)
    ensures |r| == |s|
    ensures forall i | 0 <= i < |s| :: r[i] == LowerChar(s[i])
  {
    if s == [] then [] else [LowerChar(s[0])] + Lower(s[1..])
  }

  /** `s.split('.')`, built from the first character on: a dot starts a
      new segment, any other character joins the first segment. */
  function Split(s: string): (r: seq<string>)
    ensures |r| >= 1
    decreases |s|
  {
    if s == [] then [""]
    else
      var rest := Split(s[1..]);
      if s[0] == '.' then [""] + rest else [[s[0]] + rest[0]] + rest[1..]
  }

  /** `segments.join('.')`. */
  function Join(segments: seq<string>): string
    requires |segments| >= 1
  {
    if |segments| == 1 then segments[0] else segments[0] + "." + Join(segments[1..])
  }

  /** A character in front of the first segment goes in front of the join. */
  lemma JoinCons(c: char, x: string, tail: seq<string>)
    ensures Join([[c] + x] + tail) == [c] + Join([x] + tail)
  {
    var t := [[c] + x] + tail;
    var u := [x] + tail;
    assert t[1..] == tail == u[1..];
  }

  /** Splitting on dots and joining back gives the original filter. */
  lemma {:induction false} JoinSplit(s: string)
    ensures Join(Split(s)) == s
    decreases |s|
  {
    if s != [] {
      var rest := Split(s[1..]);
      JoinSplit(s[1..]);
      if s[0] == '.' {
        assert ([""] + rest)[1..] == rest;
      } else {
        JoinCons(s[0], rest[0], rest[1..]);
        assert [rest[0]] + rest[1..] == rest;
      }
      assert s == [s[0]] + s[1..];
    }
  }

  /** No segment of a split contains a dot, and there is one more segment
      than there are dots. */
  lemma {:induction false} SplitHasNoDots(s: string)
    ensures forall i | 0 <= i < |Split(s)| :: '.' !in Split(s)[i]
    ensures |Split(s)| == multiset(s)['.'] + 1
    decreases |s|
  {
    if s != [] {
      SplitHasNoDots(s[1..]);
      assert s == [s[0]] + s[1..];
      var rest := Split(s[1..]);
      if s[0] != '.' {
        assert forall i | 1 <= i < |Split(s)| :: Split(s)[i] == rest[i];
      }
    }
  }

  /** The test inside the `getFilterKey` loop: a segment counts when it
      names a pressed modifier, or when its lower-cased alias is a single
      code equal to the event's code. */
  predicate SegmentCounts(segment: string, e: KeyEvent, apple: bool) {
    || Modifier(segment, e, apple) == Some(true)
    || (AliasOf(Lower(segment), apple).Some? && AliasOf(Lower(segment), apple).value == Code(e.keyCode))
  }

  /** Every dot-separated segment of `s` counts for the event. */
  predicate AllSegmentsCount(s: string, e: KeyEvent, apple: bool) {
    forall i | 0 <= i < |Split(s)| :: SegmentCounts(Split(s)[i], e, apple)
  }

  /** A string filter matches: every segment counts and, for an exact match,
      the event has exactly as many keys down as the filter has segments. */
  predicate StringMatches(s: string, e: KeyEvent, exactMatch: bool, apple: bool) {
    AllSegmentsCount(s, e, apple) && (exactMatch ==> CountKeyByEvent(e, apple) == |Split(s)|)
  }

  /** The result of `getFilterKey(event, keyFilter, exactMatch)`, stated
      directly: no key, no match; a number matches its own code; a string
      matches as `StringMatches` says. */
  function FilterKeyResult(e: KeyEvent, filter: KeyType, exactMatch: bool, apple: bool): (r: Value)
    ensures r == Bool(false) || r == filter.ToValue()
  {
    if e.key == "" then Bool(false)
    else match filter
      case KeyCode(n) => if e.keyCode == n then Num(n) else Bool(false)
      case KeyName(s) => if StringMatches(s, e, exactMatch, apple) then Str(s) else Bool(false)
  }

  /** The number of segments among `segments[..n]` that satisfy `p`. */
  function CountWhere(segments: seq<string>, n: nat, p: string -> bool): (c: nat)
    requires n <= |segments|
    ensures c <= n
  {
    if n == 0 then 0
    else CountWhere(segments, n - 1, p) + B2I(p(segments[n - 1]))
  }

  /** The tally reaches `n` exactly when every one of the first `n`
      segments satisfies `p`: this is the test `genLen === genArr.length`. */
  lemma {:induction false} CountWhereAll(segments: seq<string>, n: nat, p: string -> bool)
    requires n <= |segments|
    ensures CountWhere(segments, n, p) == n <==> forall i | 0 <= i < n :: p(segments[i])
  {
    if n > 0 {
      CountWhereAll(segments, n - 1, p);
    }
  }

  /** The loop of `getFilterKey`: `genLen` counts the segments that pass
      the test `p`. */
  method CountSegments(segments: seq<string>, p: string -> bool) returns (genLen: nat)
    ensures genLen == CountWhere(segments, |segments|, p)
  {
    genLen := 0;
    var i := 0;
    while i < |segments|
      invariant 0 <= i <= |segments|
      invariant genLen == CountWhere(segments, i, p)
    {
      if p(segments[i]) {
        genLen := genLen + 1;
      }
      i := i + 1;
    }
  }

  /** `getFilterKey(event, keyFilter, exactMatch)`: the loop counts the
      segments that count and compares the tally with the segment count. */
  method GetFilterKey(e: KeyEvent, filter: KeyType, exactMatch: bool, apple: bool) returns (r: Value)
    ensures r == FilterKeyResult(e, filter, exactMatch, apple)
  {
    if e.key == "" {
      return Bool(false);
    }
    if filter.KeyCode? {
      return if e.keyCode == filter.code then Num(filter.code) else Bool(false);
    }
    var segments := Split(filter.name);
    var counts := s => SegmentCounts(s, e, apple);
    var genLen := CountSegments(segments, counts);
    CountWhereAll(segments, |segments|, counts);
    if exactMatch {
      r := if genLen == |segments| && CountKeyByEvent(e, apple) == |segments| then Str(filter.name) else Bool(false);
    } else {
      r := if genLen == |segments| then Str(filter.name) else Bool(false);
    }
  }

  /** The position `keyFilter.find(item => getFilterKey(event, item,
      exactMatch))` stops at, searching from `from`: the first item whose
      guard is truthy, or the end of the list. */
  function FindIndex(items: seq<KeyType>, from: nat, e: KeyEvent, exactMatch: bool, apple: bool): (k: nat)
    requires from <= |items|
    ensures from <= k <= |items|
    ensures k < |items| ==> Truthy(FilterKeyResult(e, items[k], exactMatch, apple))
    ensures forall j | from <= j < k :: !Truthy(FilterKeyResult(e, items[j], exactMatch, apple))
    decreases |items| - from
  {
    if from == |items| then from
    else if Truthy(FilterKeyResult(e, items[from], exactMatch, apple)) then from
    else FindIndex(items, from + 1, e, exactMatch, apple)
  }

  /** `keyFilter.find(...)`: the item found, or `undefined`. */
  function Find(items: seq<KeyType>, e: KeyEvent, exactMatch: bool, apple: bool): (r: Value)
    ensures r == Undefined <==> forall j | 0 <= j < |items| :: !Truthy(FilterKeyResult(e, items[j], exactMatch, apple))
  {
    var k := FindIndex(items, 0, e, exactMatch, apple);
    if k < |items| then items[k].ToValue() else Undefined
  }

  /** `genKeyFormatter(keyFilter, exactMatch)(event)`: a function is used as
      it is, a key through `getFilterKey`, a list through `find`, and any
      other value as the constant `Boolean(keyFilter)`. */
  function Guard(filter: KeyFilter, e: KeyEvent, exactMatch: bool, apple: bool): (r: Value)
    ensures filter.FilterFn? ==> r == filter.f(e)
    ensures filter.FilterKey? ==> r == FilterKeyResult(e, filter.k, exactMatch, apple)
    ensures filter.FilterList? ==> r == Find(filter.items, e, exactMatch, apple)
    ensures filter.FilterOther? ==> r == Bool(Truthy(filter.v))
  {
    match filter
    case FilterFn(f) => f(e)
    case FilterKey(k) => FilterKeyResult(e, k, exactMatch, apple)
    case FilterList(items) => Find(items, e, exactMatch, apple)
    case FilterOther(v) => Bool(Truthy(v))
  }

  /** `callbackHandler(event)`: the key the handler receives, or `None` when
      the guard is falsy and the handler is not called. The key is the guard
      itself when it is a string or number, and `event.key` otherwise. */
  function Fired(filter: KeyFilter, e: KeyEvent, exactMatch: bool, apple: bool): (r: Option<Value>)
    ensures r.Some? <==> Truthy(Guard(filter, e, exactMatch, apple))
    ensures r.Some? && (Guard(filter, e, exactMatch, apple).Str? || Guard(filter, e, exactMatch, apple).Num?) ==>
      r.value == Guard(filter, e, exactMatch, apple)
    ensures r.Some? && !(Guard(filter, e, exactMatch, apple).Str? || Guard(filter, e, exactMatch, apple).Num?) ==>
      r.value == Str(e.key)
  {
    var g := Guard(filter, e, exactMatch, apple);
    if !Truthy(g) then None
    else Some(if g.Str? || g.Num? then g else Str(e.key))
  }

  /** An event with an empty `key` (browser autofill) fires no key, number
      or list filter. */
  lemma EmptyKeyNeverFires(filter: KeyFilter, e: KeyEvent, exactMatch: bool, apple: bool)
    requires e.key == "" && (filter.FilterKey? || filter.FilterList?)
    ensures Fired(filter, e, exactMatch, apple) == None
  {
    if filter.FilterList? {
      assert forall i | 0 <= i < |filter.items| :: !Truthy(FilterKeyResult(e, filter.items[i], exactMatch, apple));
    }
  }

  /** A number filter fires exactly on its own non-zero key code, and hands
      the handler that number. */
  lemma NumberFilter(n: int, e: KeyEvent, exactMatch: bool, apple: bool)
    requires e.key != ""
    ensures Fired(FilterKey(KeyCode(n)), e, exactMatch, apple) ==
      if e.keyCode == n && n != 0 then Some(Num(n)) else None
  {
  }

  /** A string filter fires exactly when it matches and is not empty, and
      it hands the handler the filter string. */
  lemma StringFilter(s: string, e: KeyEvent, exactMatch: bool, apple: bool)
    requires e.key != ""
    ensures Fired(FilterKey(KeyName(s)), e, exactMatch, apple) ==
      if s != "" && StringMatches(s, e, exactMatch, apple) then Some(Str(s)) else None
  {
  }

  /** Whatever fires with `exactMatch` also fires without it. */
  lemma ExactMatchIsStricter(filter: KeyType, e: KeyEvent, apple: bool)
    ensures Truthy(FilterKeyResult(e, filter, true, apple)) ==> Truthy(FilterKeyResult(e, filter, false, apple))
  {
  }

  /** The `meta` segment can only count through the modifier test: its alias
      is a list, and a list never equals a key code. */
  lemma MetaOnlyAsModifier(e: KeyEvent, apple: bool)
    ensures SegmentCounts("meta", e, apple) <==> Modifier("meta", e, apple) == Some(true)
  {
    assert Lower("meta") == "meta";
  }

  /** One character in front of a string whose split is known. */
  lemma SplitPrepend(c: char, t: string, first: string, tail: seq<string>)
    requires Split(t) == [first] + tail
    ensures Split([c] + t) == if c == '.' then ["", first] + tail else [[c] + first] + tail
  {
    assert ([c] + t)[1..] == t;
  }

  /** A segment without dots, a dot, and the rest: the segment comes first. */
  lemma {:induction false} SplitAtDot(a: string, b: string)
    requires '.' !in a
    ensures Split(a + "." + b) == [a] + Split(b)
    decreases |a|
  {
    if a == [] {
      assert a + "." + b == ['.'] + b;
      SplitPrepend('.', b, Split(b)[0], Split(b)[1..]);
      assert [Split(b)[0]] + Split(b)[1..] == Split(b);
    } else {
      SplitAtDot(a[1..], b);
      assert a + "." + b == [a[0]] + (a[1..] + "." + b);
      SplitPrepend(a[0], a[1..] + "." + b, a[1..], Split(b));
      assert [a[0]] + a[1..] == a;
    }
  }

  /** A filter without dots is a single segment. */
  lemma {:induction false} SplitNoDot(a: string)
    requires '.' !in a
    ensures Split(a) == [a]
    decreases |a|
  {
    if a != [] {
      SplitNoDot(a[1..]);
      assert a == [a[0]] + a[1..];
      SplitPrepend(a[0], a[1..], a[1..], []);
    }
  }

  lemma SplitCtrlA()
    ensures Split("ctrl.a") == ["ctrl", "a"]
  {
    assert "ctrl.a" == "ctrl" + "." + "a";
    SplitAtDot("ctrl", "a");
    SplitNoDot("a");
  }

  /** Both segments of `ctrl.a` count on Ctrl+A, whether or not Shift is
      also down. */
  lemma CtrlASegmentsCount(shift: bool)
    ensures AllSegmentsCount("ctrl.a", KeyEvent(KeyDown, if shift then "A" else "a", 65, true, shift, false, false), false)
  {
    var ev := KeyEvent(KeyDown, if shift then "A" else "a", 65, true, shift, false, false);
    SplitCtrlA();
    assert Lower("a") == "a";
    assert AliasOf("a", false) == Some(Code(65));
    assert SegmentCounts("ctrl", ev, false) && SegmentCounts("a", ev, false);
  }

  /** `ctrl.a` matches Ctrl+A with or without `exactMatch`; with Shift also
      down it matches only without `exactMatch`, because the event then has
      three keys down for two segments. */
  lemma CtrlAMatches()
    ensures var ctrlA := KeyEvent(KeyDown, "a", 65, true, false, false, false);
      StringMatches("ctrl.a", ctrlA, false, false) && StringMatches("ctrl.a", ctrlA, true, false)
    ensures var ctrlShiftA := KeyEvent(KeyDown, "A", 65, true, true, false, false);
      StringMatches("ctrl.a", ctrlShiftA, false, false) && !StringMatches("ctrl.a", ctrlShiftA, true, false)
  {
    CtrlASegmentsCount(false);
    CtrlASegmentsCount(true);
    SplitCtrlA();
    assert CountKeyByEvent(KeyEvent(KeyDown, "a", 65, true, false, false, false), false) == 2;
    assert CountKeyByEvent(KeyEvent(KeyDown, "A", 65, true, true, false, false), false) == 3;
  }

  /** The handler of a `ctrl.a` filter on Ctrl+A and on Ctrl+Shift+A. */
  method CtrlA() returns (plain: Option<Value>, exact: Option<Value>, extraShiftExact: Option<Value>, extraShift: Option<Value>)
    ensures plain == Some(Str("ctrl.a")) && exact == Some(Str("ctrl.a"))
    ensures extraShiftExact == None && extraShift == Some(Str("ctrl.a"))
  {
    var ctrlA := KeyEvent(KeyDown, "a", 65, true, false, false, false);
    var ctrlShiftA := KeyEvent(KeyDown, "A", 65, true, true, false, false);
    var f := FilterKey(KeyName("ctrl.a"));
    CtrlAMatches();
    StringFilter("ctrl.a", ctrlA, false, false);
    StringFilter("ctrl.a", ctrlA, true, false);
    StringFilter("ctrl.a", ctrlShiftA, true, false);
    StringFilter("ctrl.a", ctrlShiftA, false, false);
    plain := Fired(f, ctrlA, false, false);
    exact := Fired(f, ctrlA, true, false);
    extraShiftExact := Fired(f, ctrlShiftA, true, false);
    extraShift := Fired(f, ctrlShiftA, false, false);
  }
}
