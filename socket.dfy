/** The part of `socketService.ts` the pages rely on: one shared socket that
    exists only after `connect`, a list of registered listeners, and the log of
    what was sent. Every `on`, `off` and `emit` is silently skipped while there
    is no socket. Delivery of events by the server is not modelled. */
module Socket {
  import opened Types
  import opened Seqs

  /** The callbacks that get registered: the service's own logging callbacks
      and the page handlers, by name. */
  datatype Handler =
    | LogConnect | LogDisconnect | LogConnectError
    | NewOrderHandler | OrderUpdateHandler | TableUpdateHandler | BillRequestHandler | KotUpdateHandler

  datatype Listener = Listener(event: string, handler: Handler)

  /** One message sent to the server (the payload is the id it carries) */
  datatype Emission = Emission(event: string, payload: string)

  /** The listeners a freshly created socket starts with */
  const ConnectionListeners: seq<Listener> :=
    [Listener("connect", LogConnect), Listener("disconnect", LogDisconnect), Listener("connect_error", LogConnectError)]

  /** Whether a listener survives `off(event, callback)`: a listener for
      another event always does; one for this event does only when a callback
      was named and it is a different one. */
  function Survives(event: string, handler: Option<Handler>): Listener -> bool
  {
    (l: Listener) => l.event != event || (handler.Some? && l.handler != handler.value)
  }

  /** `off(event)` without a callback drops every listener for `event` and
      keeps every other listener, in order. */
  lemma OffAllMembers(listeners: seq<Listener>, event: string)
    ensures forall l :: l in Filter(listeners, Survives(event, None)) <==> l in listeners && l.event != event
  {
    FilterMembers(listeners, Survives(event, None));
  }

  /** `off(event, h)` right after `on(event, h)` restores the listeners, when
      `h` was not registered for `event` before. */
  lemma OffUndoesOn(listeners: seq<Listener>, event: string, h: Handler)
    requires Listener(event, h) !in listeners
    ensures Filter(listeners + [Listener(event, h)], Survives(event, Some(h))) == listeners
  {
    var p := Survives(event, Some(h));
    FilterAppend(listeners, [Listener(event, h)], p);
    forall k | 0 <= k < |listeners| ensures p(listeners[k]) {
      assert listeners[k] in listeners;
    }
    FilterKeepsAll(listeners, p);
    FilterDropsAll([Listener(event, h)], p);
  }

  const JoinRestaurantEvent := "join:restaurant"
  const LeaveRestaurantEvent := "leave:restaurant"
  const JoinTableEvent := "join:table"
  const LeaveTableEvent := "leaveTable"

  /** The socket service singleton */
  class SocketService {
    var connected: bool
    var listeners: seq<Listener>
    var emitted: seq<Emission>

    /** Without a socket there is nothing to listen on. */
    predicate Valid()
      reads this
    {
      !connected ==> listeners == []
    }

    constructor ()
      ensures Valid() && !connected && listeners == [] && emitted == []
    {
      connected, listeners, emitted := false, [], [];
    }

    /** `connect`: creates the socket only once; a second call changes nothing. */
    method Connect()
      requires Valid()
      modifies this
      ensures Valid() && connected && emitted == old(emitted)
      ensures old(connected) ==> listeners == old(listeners)
      ensures !old(connected) ==> listeners == ConnectionListeners
    {
      if !connected {
        connected := true;
        listeners := ConnectionListeners;
      }
    }

    /** `disconnect`: drops the socket and with it every listener. */
    method Disconnect()
      modifies this
      ensures Valid() && !connected && listeners == [] && emitted == old(emitted)
    {
      connected, listeners := false, [];
    }

    /** `emit`: sent only when a socket exists. */
    method Emit(event: string, payload: string)
      requires Valid()
      modifies this
      ensures Valid() && connected == old(connected) && listeners == old(listeners)
      ensures connected ==> emitted == old(emitted) + [Emission(event, payload)]
      ensures !connected ==> emitted == old(emitted)
    {
      if connected {
        emitted := emitted + [Emission(event, payload)];
      }
    }

    /** `on`: registered only when a socket exists. */
    method On(event: string, handler: Handler)
      requires Valid()
      modifies this
      ensures Valid() && connected == old(connected) && emitted == old(emitted)
      ensures connected ==> listeners == old(listeners) + [Listener(event, handler)]
      ensures !connected ==> listeners == old(listeners)
    {
      if connected {
        listeners := listeners + [Listener(event, handler)];
      }
    }

    /** `off`: with a callback removes that callback for the event, without
        one removes every callback for the event. */
    method Off(event: string, handler: Option<Handler>)
      requires Valid()
      modifies this
      ensures Valid() && connected == old(connected) && emitted == old(emitted)
      ensures connected ==> listeners == Filter(old(listeners), Survives(event, handler))
      ensures !connected ==> listeners == old(listeners)
    {
      if connected {
        listeners := Filter(listeners, Survives(event, handler));
      }
    }
  }
}
