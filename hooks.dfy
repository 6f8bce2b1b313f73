/** The synchronous broadcast hook the compiler owns (tapable's `SyncHook`, as
    tapableDemo.js uses it): an ordered list of labelled taps, and a `call` that runs
    every tap, in the order they were registered, with the same arguments.

    A tapped callback is modelled by what it makes observable: a `Listener` maps the
    arguments it receives to the output it produces, and running it appends one
    `Fired` event to an `EventLog`. */
module Hooks {

  type Listener = seq<string> -> string

  /** One `hook.tap(name, callback)` registration. */
  datatype Subscription = Subscription(name: string, listener: Listener)

  /** The trace left by running the callback tapped under `name` on `args`. */
  datatype Event = Fired(name: string, args: seq<string>, output: string)

  /** What one `call(...args)` leaves in the trace: one event per tap, in tap order,
      each tap receiving the very same arguments. */
  function Broadcast(taps: seq<Subscription>, args: seq<string>): (events: seq<Event>)
    ensures |events| == |taps|
    ensures forall i :: 0 <= i < |taps| ==>
      events[i] == Fired(taps[i].name, args, taps[i].listener(args))
  {
    if taps == [] then []
    else Broadcast(taps[..|taps| - 1], args) + [Fired(taps[|taps| - 1].name, args, taps[|taps| - 1].listener(args))]
  }

  /** Broadcasting to the taps of `a` and then of `b` is broadcasting to `a + b`. */
  lemma BroadcastAppend(a: seq<Subscription>, b: seq<Subscription>, args: seq<string>)
    ensures Broadcast(a + b, args) == Broadcast(a, args) + Broadcast(b, args)
  {
  }

  /** The observable side channel of all callbacks: the events they produced, in order. */
  class EventLog {
    var events: seq<Event>

    constructor ()
      ensures events == []
    {
      events := [];
    }
  }

  class SyncHook {
    var taps: seq<Subscription>

    /** `new SyncHook()`: no taps yet. */
    constructor ()
      ensures taps == []
    {
      taps := [];
    }

    /** `tap(name, callback)`: registers at the end; duplicate labels are kept. */
    method Tap(name: string, listener: Listener)
      modifies this
      ensures taps == old(taps) + [Subscription(name, listener)]
    {
      taps := taps + [Subscription(name, listener)];
    }

    /** `call(...args)`: runs every tap once, in registration order, with `args`. */
    method Call(args: seq<string>, log: EventLog)
      modifies log
      ensures log.events == old(log.events) + Broadcast(taps, args)
    {
      var i := 0;
      while i < |taps|
        invariant 0 <= i <= |taps|
        invariant log.events == old(log.events) + Broadcast(taps[..i], args)
      {
        var tap := taps[i];
        assert taps[..i + 1][..i] == taps[..i];
        log.events := log.events + [Fired(tap.name, args, tap.listener(args))];
        i := i + 1;
      }
      assert taps[..i] == taps;
    }
  }
}
