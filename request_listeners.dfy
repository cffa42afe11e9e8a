/** The two global listener lists of useRequest:
    src/hooks/useRequest/src/utils/subscribeFocus.ts (gated on visible and
    online; of its two registrations only `focus` names an event the browser
    fires, since the other is spelled `visibilityChange`) and
    src/hooks/useRequest/src/utils/subscribeReVisible.ts (visibility only).
    Both push on subscribe and walk the list in order on `revalidate`; they
    differ in the presence check of their `unsubscribe`. Visibility and
    network status are parameters. */
module RequestListeners {
  import opened Js

  class ListenerList {
    var listeners: seq<nat>
    /** The next closure identity. */
    var next: nat

    ghost predicate Valid()
      reads this
    {
      NoDup(listeners) && forall l | l in listeners :: l < next
    }

    constructor ()
      ensures Valid() && listeners == []
    {
      listeners := [];
      next := 0;
    }

    /** `subscribe(listener)`: a new listener at the end of the list. */
    method Subscribe() returns (l: nat)
      requires Valid()
      modifies this
      ensures Valid()
      ensures l !in old(listeners) && listeners == old(listeners) + [l]
    {
      l := next;
      NoDupAppend(listeners, l);
      listeners := listeners + [l];
      next := next + 1;
    }

    /** The guarded `unsubscribe` of subscribeFocus.ts: removes `l` if it is
        there and does nothing otherwise. It is also the corrected
        `unsubscribe` of subscribeReVisible.ts. */
    method Unsubscribe(l: nat)
      requires Valid()
      modifies this
      ensures Valid() && next == old(next)
      ensures listeners == RemoveFirst(old(listeners), l)
    {
      listeners := RemoveFirst(listeners, l);
    }

    /** The `unsubscribe` of subscribeReVisible.ts as written:
        `splice(indexOf(l), 1)` without a presence check, so once `l` is gone
        a further call removes the current last listener. */
    method UnsubscribeAsWritten(l: nat)
      requires Valid()
      modifies this
      ensures Valid() && next == old(next)
      ensures listeners == SpliceIndexOf(old(listeners), l)
    {
      listeners := SpliceIndexOf(listeners, l);
    }

    /** `revalidate()`: when `gate` holds (visible and online for focus,
        visible for re-visibility) every listener is called in list order;
        otherwise none is. */
    method Revalidate(gate: bool) returns (called: seq<nat>)
      ensures called == (if gate then listeners else [])
    {
      called := [];
      if !gate {
        return;
      }
      var i := 0;
      while i < |listeners|
        invariant 0 <= i <= |listeners| && called == listeners[..i]
      {
        called := called + [listeners[i]];
        i := i + 1;
      }
    }
  }

  /** The gate of subscribeFocus.ts: `isDocumentVisible() && isOnline()`. */
  predicate FocusGate(visible: bool, online: bool) {
    visible && online
  }

  /** The guarded unsubscribe is idempotent, and a subscription undone by it
      restores the list. */
  lemma {:induction false} GuardedUnsubscribe(s: seq<nat>, l: nat)
    requires NoDup(s)
    ensures RemoveFirst(RemoveFirst(s, l), l) == RemoveFirst(s, l)
    ensures l !in s ==> RemoveFirst(s + [l], l) == s
  {
    if l !in s {
      RemoveFirstAppended(s, l);
    }
  }

  /** subscribeReVisible.ts as written: a listener unsubscribed twice takes
      another subscriber's listener with it on the second call. */
  method SecondUnsubscribeRemovesOther() returns (otherSubscribed: bool)
    ensures !otherSubscribed
  {
    var list := new ListenerList();
    var other := list.Subscribe();
    var mine := list.Subscribe();
    list.UnsubscribeAsWritten(mine);
    list.UnsubscribeAsWritten(mine);
    otherSubscribed := other in list.listeners;
  }

  /** With the presence check the same calls keep the other listener. */
  method SecondGuardedUnsubscribeKeepsOther() returns (otherSubscribed: bool, mineSubscribed: bool)
    ensures otherSubscribed && !mineSubscribed
  {
    var list := new ListenerList();
    var other := list.Subscribe();
    var mine := list.Subscribe();
    list.Unsubscribe(mine);
    list.Unsubscribe(mine);
    otherSubscribed := other in list.listeners;
    mineSubscribed := mine in list.listeners;
  }

  /** Focus revalidation when offline or hidden calls nobody. */
  method OfflineFocusCallsNobody(visible: bool) returns (called: seq<nat>)
    ensures called == []
  {
    var list := new ListenerList();
    var _ := list.Subscribe();
    called := list.Revalidate(FocusGate(visible, false));
  }
}
