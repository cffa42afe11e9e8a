/** `limit(fn, timespan)` (src/hooks/useRequest/src/utils/limit.ts): a
    leading-edge rate limiter. The first call runs `fn` and starts a timer;
    calls before that timer fires are dropped. */
module RequestLimit {
  import opened Js
  import opened Timers

  class Limited {
    const timespan: int
    var pending: bool
    /** The timer that clears `pending`. */
    var timers: Table<()>
    /** The argument lists `fn` was invoked with, in order. */
    var calls: seq<seq<Value>>
    /** Calls of `fn` since the last timer firing. */
    ghost var sinceFire: nat

    /** `pending` exactly while the one timer is live, and `fn` has run at
        most once since the last firing. */
    ghost predicate Valid()
      reads this
    {
      && timers.Valid()
      && (pending <==> timers.live != map[])
      && (forall h, g | h in timers.live && g in timers.live :: h == g)
      && sinceFire == (if pending then 1 else 0)
    }

    constructor (timespan: int)
      ensures Valid() && this.timespan == timespan && !pending && calls == []
    {
      this.timespan := timespan;
      pending := false;
      timers := Empty();
      calls := [];
      sinceFire := 0;
    }

    /** A call of the limited function. */
    method Call(args: seq<Value>) returns (invoked: bool)
      requires Valid()
      modifies this
      ensures Valid() && pending
      ensures invoked <==> !old(pending)
      ensures calls == old(calls) + (if invoked then [args] else [])
      ensures invoked ==> timers == old(timers).Start(timespan, ()).0
      ensures !invoked ==> timers == old(timers)
    {
      if pending {
        return false;
      }
      pending := true;
      calls := calls + [args];
      var started := timers.Start(timespan, ());
      timers := started.0;
      sinceFire := sinceFire + 1;
      invoked := true;
    }

    /** The timer `h` fires: `pending = false`. */
    method Fire(h: nat)
      requires Valid() && h in timers.live
      modifies this
      ensures Valid() && !pending && calls == old(calls) && timers.live == map[]
      ensures timers == old(timers).Fired(h)
    {
      timers := timers.Fired(h);
      pending := false;
      sinceFire := 0;
    }
  }

  /** Three calls in a row run `fn` once; after the timer fires the next
      call runs it again. */
  method BurstRunsOnce(a: seq<Value>, b: seq<Value>, c: seq<Value>, d: seq<Value>)
    returns (ran: seq<bool>, calls: seq<seq<Value>>)
    ensures ran == [true, false, false, true] && calls == [a, d]
  {
    var limited := new Limited(1000);
    var r1 := limited.Call(a);
    var r2 := limited.Call(b);
    var r3 := limited.Call(c);
    var h :| h in limited.timers.live;
    limited.Fire(h);
    var r4 := limited.Call(d);
    ran := [r1, r2, r3, r4];
    calls := limited.calls;
  }
}
