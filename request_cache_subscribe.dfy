/** The per-key listener bus of the cache plugin
    (src/hooks/useRequest/src/utils/cacheSubscribe.ts). A listener is known by
    the identity of its closure, a number issued at subscription. */
module RequestCacheSubscribe {
  import opened Js

  /** `listeners[key] || []`. */
  function ListOf(listeners: map<string, seq<nat>>, key: string): seq<nat> {
    if key in listeners then listeners[key] else []
  }

  /** One listener invocation: the closure and the argument it was called with. */
  datatype Call = Call(listener: nat, data: Value)

  class CacheBus {
    var listeners: map<string, seq<nat>>
    /** The next closure identity. */
    var next: nat

    /** Every list is free of repeats and holds only issued identities. */
    ghost predicate Valid()
      reads this
    {
      forall key | key in listeners :: NoDup(listeners[key]) && forall l | l in listeners[key] :: l < next
    }

    constructor ()
      ensures Valid() && listeners == map[]
    {
      listeners := map[];
      next := 0;
    }

    /** `subscribe(key, listener)`: appends a new listener at the end of the
        key's list, creating the list when absent. */
    method Subscribe(key: string) returns (l: nat)
      requires Valid()
      modifies this
      ensures Valid()
      ensures l !in ListOf(old(listeners), key) && next == old(next) + 1
      ensures listeners == old(listeners)[key := ListOf(old(listeners), key) + [l]]
    {
      l := next;
      assert forall x | x in ListOf(listeners, key) :: x < next;
      NoDupAppend(ListOf(listeners, key), l);
      listeners := listeners[key := ListOf(listeners, key) + [l]];
      next := next + 1;
    }

    /** The returned `unsubscribe` for the listener `l` of `key`:
        `splice(indexOf(l), 1)` on that key's list only. When `l` is no
        longer there, the index is -1 and the last listener goes instead. */
    method Unsubscribe(key: string, l: nat)
      requires Valid() && key in listeners
      modifies this
      ensures Valid() && next == old(next)
      ensures listeners == old(listeners)[key := SpliceIndexOf(old(listeners)[key], l)]
    {
      var s := listeners[key];
      var r := SpliceIndexOf(s, l);
      listeners := listeners[key := r];
    }

    /** `trigger(key, data)`: every listener of `key`, in list order, is
        called with `data`; an unknown key calls none. */
    method Trigger(key: string, data: Value) returns (calls: seq<Call>)
      ensures |calls| == |ListOf(listeners, key)|
      ensures forall i | 0 <= i < |calls| :: calls[i] == Call(ListOf(listeners, key)[i], data)
    {
      calls := [];
      if key in listeners {
        var list := listeners[key];
        var i := 0;
        while i < |list|
          invariant 0 <= i <= |list| && |calls| == i
          invariant forall j | 0 <= j < i :: calls[j] == Call(list[j], data)
        {
          calls := calls + [Call(list[i], data)];
          i := i + 1;
        }
      }
    }
  }

  /** A subscription undone by its own unsubscribe restores the list. */
  lemma SubscribeThenUnsubscribe(s: seq<nat>, l: nat)
    requires l !in s
    ensures SpliceIndexOf(s + [l], l) == s
  {
    RemoveFirstAppended(s, l);
  }

  /** Unsubscribing twice: the second call removes a different listener,
      the last one left, whenever another listener is subscribed. */
  method DoubleUnsubscribeRemovesLast(key: string) returns (mineGone: bool, otherGone: bool)
    ensures mineGone && otherGone
  {
    var bus := new CacheBus();
    var other := bus.Subscribe(key);
    var mine := bus.Subscribe(key);
    bus.Unsubscribe(key, mine);
    bus.Unsubscribe(key, mine);
    mineGone := mine !in bus.listeners[key];
    otherGone := other !in bus.listeners[key];
  }
}
