/** useResponsive (src/hooks/useResponsive/index.ts): one module-wide
    breakpoint table, the `info` object computed from the window width, the
    set of subscribed components and the single `resize` listener they
    share. The window width and `isBrowser` are parameters; a subscriber is
    its component's id, and calling it stores `info` as that component's
    state. */
module Responsive {
  import opened Js
  import MapHook

  /** `Record<string, boolean>`: which breakpoints the width has reached. */
  type Info = map<string, bool>

  /** `responsiveConfig`, in `Object.keys` order. */
  type Config = MapHook.Entries<string, int>

  /** The default breakpoints. */
  const DefaultConfig: Config := [("xs", 0), ("sm", 576), ("md", 768), ("lg", 992), ("xl", 1200)]

  /** The keys of a table. */
  function KeySet(config: Config): set<string> {
    set i | 0 <= i < |config| :: config[i].0
  }

  /** The `newInfo` that `calculate` builds: every configured key, true
      when the width has reached its breakpoint. */
  function NewInfo(config: Config, width: int): (r: Info)
    ensures r.Keys == KeySet(config)
    ensures MapHook.UniqueKeys(config) ==> forall i | 0 <= i < |config| :: r[config[i].0] == (width >= config[i].1)
  {
    if config == [] then map[]
    else
      var init := config[..|config| - 1];
      var last := config[|config| - 1];
      assert forall i | 0 <= i < |init| :: init[i] == config[i];
      assert KeySet(config) == KeySet(init) + {last.0};
      NewInfo(init, width)[last.0 := width >= last.1]
  }

  /** `newInfo[key] !== info[key]` for one configured key: a key missing
      from `info` reads as `undefined`, which differs from any boolean. */
  predicate Stale(entry: (string, int), width: int, info: Info) {
    entry.0 !in info || info[entry.0] != (width >= entry.1)
  }

  /** The `shouldUpdate` flag after the loop has seen the table `config`. */
  predicate AnyStale(config: Config, width: int, info: Info) {
    config != [] && (AnyStale(config[..|config| - 1], width, info) || Stale(config[|config| - 1], width, info))
  }

  /** `shouldUpdate` is set exactly when some configured key is stale; a
      freshly built table has no stale key. */
  lemma {:induction false} AnyStaleMeans(config: Config, width: int, info: Info)
    ensures AnyStale(config, width, info) <==> exists i | 0 <= i < |config| :: Stale(config[i], width, info)
    ensures MapHook.UniqueKeys(config) ==> forall i | 0 <= i < |config| :: !Stale(config[i], width, NewInfo(config, width))
  {
    if config != [] {
      var init := config[..|config| - 1];
      AnyStaleMeans(init, width, info);
      assert forall i | 0 <= i < |init| :: init[i] == config[i];
      if AnyStale(init, width, info) {
        var i :| 0 <= i < |init| && Stale(init[i], width, info);
        assert Stale(config[i], width, info);
      }
    }
  }

  /** No table key is stale at a width when none was at another width in
      the same band of breakpoints. */
  lemma SameBand(config: Config, w1: int, w2: int, info: Info)
    requires forall i | 0 <= i < |config| :: (w1 >= config[i].1) == (w2 >= config[i].1)
    requires forall i | 0 <= i < |config| :: !Stale(config[i], w1, info)
    ensures !AnyStale(config, w2, info)
  {
    AnyStaleMeans(config, w2, info);
  }

  lemma DefaultKeysUnique()
    ensures MapHook.UniqueKeys(DefaultConfig)
  {
  }

  /** The default breakpoints nest: a wider breakpoint reached means every
      narrower one is reached, and `xs` holds for any width that is not
      negative. */
  lemma DefaultBreakpointsNest(width: int)
    ensures var info := NewInfo(DefaultConfig, width);
      && "xs" in info && "sm" in info && "md" in info && "lg" in info && "xl" in info
      && (info["xl"] ==> info["lg"]) && (info["lg"] ==> info["md"])
      && (info["md"] ==> info["sm"]) && (info["sm"] ==> info["xs"])
      && (width >= 0 ==> info["xs"])
  {
    DefaultKeysUnique();
    NewInfoAt(DefaultConfig, width, 0);
    NewInfoAt(DefaultConfig, width, 1);
    NewInfoAt(DefaultConfig, width, 2);
    NewInfoAt(DefaultConfig, width, 3);
    NewInfoAt(DefaultConfig, width, 4);
  }

  lemma NewInfoAt(config: Config, width: int, i: nat)
    requires MapHook.UniqueKeys(config) && i < |config|
    ensures config[i].0 in NewInfo(config, width) && NewInfo(config, width)[config[i].0] == (width >= config[i].1)
  {
  }

  /** The component states after the subscribers `subs` have each stored
      `info`: those components hold `info`, the others keep theirs. */
  function Notified(states: map<nat, Option<Info>>, subs: seq<nat>, info: Option<Info>): (r: map<nat, Option<Info>>)
    ensures r.Keys == states.Keys
    ensures forall s | s in r :: r[s] == (if s in subs then info else states[s])
  {
    map s | s in states :: if s in subs then info else states[s]
  }

  lemma NotifiedStep(states: map<nat, Option<Info>>, subs: seq<nat>, s: nat, info: Option<Info>)
    requires s in states
    ensures Notified(states, subs + [s], info) == Notified(states, subs, info)[s := info]
  {
  }

  /** `subscribers.forEach(subscriber => subscriber())`: each call stores
      `info` as its component's state, one after another. */
  method CallSubscribers(states: map<nat, Option<Info>>, subs: seq<nat>, info: Option<Info>) returns (r: map<nat, Option<Info>>)
    requires forall s | s in subs :: s in states
    ensures r == Notified(states, subs, info)
  {
    r := states;
    for i := 0 to |subs|
      invariant r == Notified(states, subs[..i], info)
    {
      NotifiedStep(states, subs[..i], subs[i], info);
      assert subs[..i + 1] == subs[..i] + [subs[i]];
      r := r[subs[i] := info];
    }
    assert subs[..|subs|] == subs;
  }

  class Responsive {
    var config: Config
    /** `info`: `None` until the first hook call in a browser. */
    var info: Option<Info>
    /** `listening`. */
    var listening: bool
    /** Whether `handleResize` is attached to the window. */
    var attached: bool
    /** `subscribers`, in insertion order. */
    var subscribers: seq<nat>
    /** The `state` of every subscribed component. */
    var states: map<nat, Option<Info>>

    ghost predicate Valid()
      reads this
    {
      && MapHook.UniqueKeys(config)
      && NoDup(subscribers)
      && (forall s | s in subscribers :: s in states)
      && (attached ==> info.Some?)
      && (listening ==> attached)
    }

    /** The module's initial state: default breakpoints, no `info`, no
        listener and no subscribers. */
    constructor ()
      ensures Valid()
      ensures config == DefaultConfig && info == None && !listening && !attached
      ensures subscribers == [] && states == map[]
    {
      config := DefaultConfig;
      info := None;
      listening := false;
      attached := false;
      subscribers := [];
      states := map[];
    }

    /** `calculate()`: `info` is replaced by the new table exactly when
        some configured key is stale; either way every configured key then
        holds the comparison for `width`. */
    method Calculate(width: int) returns (replaced: bool)
      requires Valid() && info.Some?
      modifies this
      ensures Valid()
      ensures replaced == AnyStale(config, width, old(info).value)
      ensures replaced ==> info == Some(NewInfo(config, width))
      ensures !replaced ==> info == old(info)
      ensures info.Some? && forall i | 0 <= i < |config| :: !Stale(config[i], width, info.value)
      ensures config == old(config) && listening == old(listening) && attached == old(attached)
      ensures subscribers == old(subscribers) && states == old(states)
    {
      var newInfo: Info := map[];
      var shouldUpdate := false;
      for i := 0 to |config|
        invariant newInfo == NewInfo(config[..i], width)
        invariant shouldUpdate == AnyStale(config[..i], width, info.value)
      {
        assert config[..i + 1][..i] == config[..i];
        var key := config[i].0;
        newInfo := newInfo[key := width >= config[i].1];
        if key !in info.value || newInfo[key] != info.value[key] {
          shouldUpdate := true;
        }
      }
      assert config[..|config|] == config;
      AnyStaleMeans(config, width, info.value);
      if shouldUpdate {
        info := Some(newInfo);
      }
      replaced := shouldUpdate;
    }

    /** `handleResize()`: recalculate, and call every subscriber exactly
        when `info` was replaced; each called subscriber's component takes
        the new `info` as its state. */
    method HandleResize(width: int) returns (notified: seq<nat>)
      requires Valid() && attached
      modifies this
      ensures Valid()
      ensures info.Some? && forall i | 0 <= i < |config| :: !Stale(config[i], width, info.value)
      ensures notified == (if AnyStale(config, width, old(info).value) then subscribers else [])
      ensures AnyStale(config, width, old(info).value) ==> info == Some(NewInfo(config, width))
      ensures states == Notified(old(states), notified, info)
      ensures config == old(config) && subscribers == old(subscribers)
      ensures listening == old(listening) && attached == old(attached)
    {
      var replaced := Calculate(width);
      if !replaced {
        return [];
      }
      states := CallSubscribers(states, subscribers, info);
      notified := subscribers;
    }

    /** `configResponsive(config)`: the table is replaced; `info` is
        recalculated only when it already exists. */
    method ConfigResponsive(newConfig: Config, width: int)
      requires Valid() && MapHook.UniqueKeys(newConfig)
      modifies this
      ensures Valid()
      ensures config == newConfig
      ensures old(info).None? ==> info == None
      ensures old(info).Some? ==> info.Some? && forall i | 0 <= i < |config| :: !Stale(config[i], width, info.value)
      ensures subscribers == old(subscribers) && states == old(states)
      ensures listening == old(listening) && attached == old(attached)
    {
      config := newConfig;
      if info.Some? {
        var _ := Calculate(width);
      }
    }

    /** A render of `useResponsive()`: the first one in a browser while not
        listening starts `info` empty, calculates it, attaches the listener
        and sets `listening`. The result is the value `useState` starts
        from. */
    method Render(isBrowser: bool, width: int) returns (initialState: Option<Info>)
      requires Valid()
      modifies this
      ensures Valid()
      ensures isBrowser && !old(listening) ==>
        && listening && attached && info.Some?
        && forall i | 0 <= i < |config| :: !Stale(config[i], width, info.value)
      ensures !(isBrowser && !old(listening)) ==> info == old(info) && listening == old(listening) && attached == old(attached)
      ensures initialState == info
      ensures config == old(config) && subscribers == old(subscribers) && states == old(states)
    {
      if isBrowser && !listening {
        info := Some(map[]);
        var _ := Calculate(width);
        attached := true;
        listening := true;
      }
      initialState := info;
    }

    /** The effect of component `id` on mount: outside a browser nothing;
        otherwise the listener is attached again if `listening` was
        cleared, and the component subscribes. */
    method Mount(isBrowser: bool, id: nat, initialState: Option<Info>)
      requires Valid() && id !in subscribers && (isBrowser ==> info.Some?)
      modifies this
      ensures Valid()
      ensures !isBrowser ==> subscribers == old(subscribers) && states == old(states) && attached == old(attached)
      ensures isBrowser ==> subscribers == old(subscribers) + [id] && states == old(states)[id := initialState] && attached
      ensures config == old(config) && info == old(info) && listening == old(listening)
    {
      if !isBrowser {
        return;
      }
      if !listening {
        attached := true;
      }
      NoDupAppend(subscribers, id);
      subscribers := subscribers + [id];
      states := states[id := initialState];
    }

    /** The effect's cleanup: the component unsubscribes, and when no
        subscriber is left the listener is detached and `listening`
        cleared. */
    method Unmount(id: nat)
      requires Valid()
      modifies this
      ensures Valid()
      ensures subscribers == RemoveFirst(old(subscribers), id) && id !in subscribers
      ensures states == old(states) - {id}
      ensures subscribers == [] ==> !attached && !listening
      ensures subscribers != [] ==> attached == old(attached) && listening == old(listening)
      ensures config == old(config) && info == old(info)
    {
      subscribers := RemoveFirst(subscribers, id);
      states := states - {id};
      if subscribers == [] {
        attached := false;
        listening := false;
      }
    }
  }

  /** Widths 1000 and 1100 reach the same default breakpoints. */
  lemma DefaultBand()
    ensures forall i | 0 <= i < |DefaultConfig| :: (1000 >= DefaultConfig[i].1) == (1100 >= DefaultConfig[i].1)
  {
  }

  /** Two components mounted at width 800 share one listener. */
  method MountTwo() returns (r: Responsive)
    ensures fresh(r) && r.Valid() && r.config == DefaultConfig && r.attached
    ensures r.subscribers == [1, 2] && r.info.Some?
    ensures forall i | 0 <= i < |r.config| :: !Stale(r.config[i], 800, r.info.value)
  {
    r := new Responsive();
    var s1 := r.Render(true, 800);
    r.Mount(true, 1, s1);
    var s2 := r.Render(true, 800);
    r.Mount(true, 2, s2);
  }

  /** From width 800, a resize to 1000 crosses `lg` and calls both
      subscribers; a resize to 1100 then crosses nothing and calls none. */
  method ResizeTwice(r: Responsive) returns (first: seq<nat>, second: seq<nat>)
    requires r.Valid() && r.config == DefaultConfig && r.attached
    requires r.subscribers == [1, 2] && r.info.Some?
    requires forall i | 0 <= i < |r.config| :: !Stale(r.config[i], 800, r.info.value)
    modifies r
    ensures first == [1, 2] && second == []
    ensures r.Valid() && r.subscribers == [1, 2]
  {
    assert !Stale(DefaultConfig[3], 800, r.info.value);
    AnyStaleMeans(DefaultConfig, 1000, r.info.value);
    first := r.HandleResize(1000);
    DefaultBand();
    SameBand(DefaultConfig, 1000, 1100, r.info.value);
    second := r.HandleResize(1100);
  }

  /** The last of two subscribers to unmount detaches the listener. */
  method UnmountBoth(r: Responsive)
    requires r.Valid() && r.subscribers == [1, 2]
    modifies r
    ensures r.Valid() && r.subscribers == [] && !r.attached && !r.listening
  {
    r.Unmount(1);
    RemoveFirstAt([1, 2], 1, 0);
    r.Unmount(2);
    RemoveFirstAt([2], 2, 0);
  }

  /** Two components at width 800: a resize to 1000 notifies both, a
      resize to 1100 notifies none, and once both unmount the listener is
      gone. */
  method TwoComponents() returns (first: seq<nat>, second: seq<nat>, attachedAfter: bool)
    ensures first == [1, 2] && second == [] && !attachedAfter
  {
    var r := MountTwo();
    first, second := ResizeTwice(r);
    UnmountBoth(r);
    attachedAfter := r.attached;
  }
}
