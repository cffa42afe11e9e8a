/** `setTimeout` / `clearTimeout` as explicit data: the table of live timers,
    each with its delay and the callback it will run. Real time is not
    modelled; a timer fires when its owner's `Fire` method is called with its
    handle. */
module Timers {
  import opened Js

  datatype Timer<A> = Timer(delay: int, callback: A)

  datatype Table<A> = Table(live: map<nat, Timer<A>>, next: nat) {

    /** Every live handle was issued before `next`. */
    predicate Valid() {
      forall h | h in live :: h < next
    }

    /** `setTimeout(callback, delay)`: a handle that is not live, now live. */
    function Start(delay: int, callback: A): (r: (Table<A>, nat))
      requires Valid()
      ensures r.0.Valid() && r.1 !in live
      ensures r.0.live == live[r.1 := Timer(delay, callback)]
    {
      (Table(live[next := Timer(delay, callback)], next + 1), next)
    }

    /** `if (handle) clearTimeout(handle)`: clearing an absent, fired or
        cleared handle does nothing. */
    function Clear(handle: Option<nat>): (r: Table<A>)
      requires Valid()
      ensures r.Valid() && r.next == next
      ensures handle.None? ==> r == this
      ensures handle.Some? ==> r.live.Keys == live.Keys - {handle.value}
      ensures forall h | h in r.live :: h in live && r.live[h] == live[h]
    {
      if handle.None? then this else Table(live - {handle.value}, next)
    }

    /** The table once the live timer `h` has run its callback. */
    function Fired(h: nat): (r: Table<A>)
      requires Valid() && h in live
      ensures r.Valid() && r.live.Keys == live.Keys - {h}
    {
      Table(live - {h}, next)
    }
  }

  function Empty<A>(): (t: Table<A>)
    ensures t.Valid() && t.live == map[]
  {
    Table(map[], 1)
  }
}
