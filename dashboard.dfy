/** The staff dashboard of `Dashboard.tsx`: its real-time handlers for the
    active-order list, the table colour rule, and its socket subscriptions. */
module Dashboard {
  import opened Types
  import opened Seqs
  import opened Socket
  import Stores
  import OrdersPage

  /** `handleNewOrder`: the new order goes in front of the unchanged list.
      (The toast and the reload that follow are not modelled.) */
  function HandleNewOrder(orders: seq<Order>, o: Order): (r: seq<Order>)
    ensures |r| == |orders| + 1 && r[0] == o && r[1..] == orders
  {
    [o] + orders
  }

  /** The dashboard's new-order handler, applied to the order store's list,
      does what the store's `addOrder` does. */
  method NewOrderAsStoreAdd(store: Stores.OrderStore, o: Order)
    modifies store
    ensures store.orders == HandleNewOrder(old(store.orders), o)
    ensures store.currentOrder == old(store.currentOrder)
  {
    store.AddOrder(o);
  }

  /** A status-only patch for the order store */
  function StatusPatch(status: OrderStatus): Stores.OrderPatch
  {
    Stores.OrderPatch(Some(status), None, None, None, None)
  }

  /** The dashboard's `handleOrderUpdate` is the same list patch as the
      customer page's, and both agree with the order store's `updateOrder`
      given a status-only patch: only the matching order's status changes,
      an unknown id is a no-op and the length is kept. */
  lemma StatusEventAgreesWithStore(orders: seq<Order>, orderId: string, status: OrderStatus)
    ensures OrdersPage.HandleOrderUpdate(orders, orderId, status)
            == Stores.UpdateOrders(orders, orderId, StatusPatch(status))
  {
    var a := OrdersPage.HandleOrderUpdate(orders, orderId, status);
    var b := Stores.UpdateOrders(orders, orderId, StatusPatch(status));
    forall k | 0 <= k < |orders| ensures a[k] == b[k] {
    }
  }

  /** The class a table card gets for its status */
  const AvailableClass := "bg-white border-gray-200"
  const OccupiedClass := "bg-blue-50 border-blue-300"
  const ReservedClass := "bg-yellow-50 border-yellow-300"
  const DefaultTableClass := "bg-gray-50 border-gray-200"

  /** `getTableStatusColor`: available, occupied and reserved tables each get
      a class of their own; every other status shares the default. */
  function TableStatusColor(status: TableStatus): (c: string)
    ensures c == DefaultTableClass <==> !(status.Available? || status.Occupied? || status.Reserved?)
    ensures status.Available? ==> c == AvailableClass
    ensures status.Occupied? ==> c == OccupiedClass
    ensures status.Reserved? ==> c == ReservedClass
  {
    match status
    case Available => AvailableClass
    case Occupied => OccupiedClass
    case Reserved => ReservedClass
    case _ => DefaultTableClass
  }

  /** The three named statuses are told apart: two statuses share a class
      only when both fall to the default or they are the same named status. */
  lemma TableColorsDistinct(s1: TableStatus, s2: TableStatus)
    requires s1.Available? || s1.Occupied? || s1.Reserved?
    ensures TableStatusColor(s1) == TableStatusColor(s2) <==> s1 == s2
  {
  }

  const NewOrderEvent := "newOrder"
  const TableStatusEvent := "tableStatusUpdated"
  const BillRequestedEvent := "billRequested"

  /** The four events the dashboard listens to */
  const DashboardEvents: seq<string> :=
    [NewOrderEvent, OrdersPage.OrderStatusEvent, TableStatusEvent, BillRequestedEvent]

  /** The dashboard's listeners, in registration order */
  const DashboardListeners: seq<Listener> :=
    [Listener(NewOrderEvent, NewOrderHandler), Listener(OrdersPage.OrderStatusEvent, OrderUpdateHandler),
     Listener(TableStatusEvent, TableUpdateHandler), Listener(BillRequestedEvent, BillRequestHandler)]

  /** `off(event)` for each event in turn */
  function WithoutEvents(listeners: seq<Listener>, events: seq<string>): seq<Listener>
    decreases |events|
  {
    if events == [] then listeners else WithoutEvents(Filter(listeners, Survives(events[0], None)), events[1..])
  }

  /** A listener survives the cleanup iff its event is not one of those removed. */
  lemma {:induction false} WithoutEventsMembers(listeners: seq<Listener>, events: seq<string>)
    ensures forall l :: l in WithoutEvents(listeners, events) <==> l in listeners && l.event !in events
    decreases |events|
  {
    if events != [] {
      OffAllMembers(listeners, events[0]);
      WithoutEventsMembers(Filter(listeners, Survives(events[0], None)), events[1..]);
    }
  }

  /** Removing events from two lists at once is removing them from each. */
  lemma {:induction false} WithoutEventsAppend(a: seq<Listener>, b: seq<Listener>, events: seq<string>)
    ensures WithoutEvents(a + b, events) == WithoutEvents(a, events) + WithoutEvents(b, events)
    decreases |events|
  {
    if events != [] {
      FilterAppend(a, b, Survives(events[0], None));
      WithoutEventsAppend(Filter(a, Survives(events[0], None)), Filter(b, Survives(events[0], None)), events[1..]);
    }
  }

  /** Removing events no listener is registered for changes nothing. */
  lemma {:induction false} WithoutEventsKeepsOthers(listeners: seq<Listener>, events: seq<string>)
    requires forall l :: l in listeners ==> l.event !in events
    ensures WithoutEvents(listeners, events) == listeners
    decreases |events|
  {
    if events != [] {
      var p := Survives(events[0], None);
      forall k | 0 <= k < |listeners| ensures p(listeners[k]) {
        assert listeners[k] in listeners;
      }
      FilterKeepsAll(listeners, p);
      WithoutEventsKeepsOthers(listeners, events[1..]);
    }
  }

  /** When no listener for the dashboard's events was registered before the
      mount, cleanup restores exactly the listeners the mount found. */
  lemma CleanupUndoesMount(before: seq<Listener>)
    requires forall l :: l in before ==> l.event !in DashboardEvents
    ensures WithoutEvents(before + DashboardListeners, DashboardEvents) == before
  {
    WithoutEventsAppend(before, DashboardListeners, DashboardEvents);
    WithoutEventsMembers(DashboardListeners, DashboardEvents);
    var rest := WithoutEvents(DashboardListeners, DashboardEvents);
    NoMembersEmpty(rest);
    WithoutEventsKeepsOthers(before, DashboardEvents);
  }

  const LoginRoute := "/restaurant/login"

  /** The mount effect. Without a staff user it only navigates to the login
      page: no socket call at all. Otherwise it connects, joins the
      restaurant's room and registers the four handlers. (The data load is not
      modelled.) */
  method Mount(socket: SocketService, user: Option<StaffUser>) returns (navigateTo: Option<string>)
    requires socket.Valid()
    modifies socket
    ensures socket.Valid()
    ensures user.None? ==>
              navigateTo == Some(LoginRoute) &&
              socket.connected == old(socket.connected) && socket.listeners == old(socket.listeners) &&
              socket.emitted == old(socket.emitted)
    ensures user.Some? ==>
              navigateTo == None && socket.connected &&
              socket.listeners == (if old(socket.connected) then old(socket.listeners) else ConnectionListeners)
                                  + DashboardListeners &&
              socket.emitted == old(socket.emitted) + [Emission(JoinRestaurantEvent, user.value.restaurantId)]
  {
    if user.None? {
      return Some(LoginRoute);
    }
    socket.Connect();
    socket.Emit(JoinRestaurantEvent, user.value.restaurantId);
    socket.On(NewOrderEvent, NewOrderHandler);
    socket.On(OrdersPage.OrderStatusEvent, OrderUpdateHandler);
    socket.On(TableStatusEvent, TableUpdateHandler);
    socket.On(BillRequestedEvent, BillRequestHandler);
    navigateTo := None;
  }

  /** The cleanup of a mount that had a user: leave the room, then `off` each
      of the four events without a callback, which removes every listener for
      them, the customer page's included. */
  method Cleanup(socket: SocketService, user: StaffUser)
    requires socket.Valid()
    modifies socket
    ensures socket.Valid() && socket.connected == old(socket.connected)
    ensures socket.connected ==>
              socket.listeners == WithoutEvents(old(socket.listeners), DashboardEvents) &&
              socket.emitted == old(socket.emitted) + [Emission(LeaveRestaurantEvent, user.restaurantId)]
    ensures !socket.connected ==> socket.listeners == old(socket.listeners) && socket.emitted == old(socket.emitted)
  {
    socket.Emit(LeaveRestaurantEvent, user.restaurantId);
    socket.Off(NewOrderEvent, None);
    socket.Off(OrdersPage.OrderStatusEvent, None);
    socket.Off(TableStatusEvent, None);
    socket.Off(BillRequestedEvent, None);
    if socket.connected {
      WithoutDashboardEvents(old(socket.listeners));
    }
  }

  /** Removing the dashboard's events is four `off` calls in a row. */
  lemma WithoutDashboardEvents(listeners: seq<Listener>)
    ensures WithoutEvents(listeners, DashboardEvents)
            == Filter(Filter(Filter(Filter(listeners, Survives(NewOrderEvent, None)),
                                    Survives(OrdersPage.OrderStatusEvent, None)),
                             Survives(TableStatusEvent, None)),
                      Survives(BillRequestedEvent, None))
  {
    var e := DashboardEvents;
    var l1 := Filter(listeners, Survives(NewOrderEvent, None));
    var l2 := Filter(l1, Survives(OrdersPage.OrderStatusEvent, None));
    var l3 := Filter(l2, Survives(TableStatusEvent, None));
    var l4 := Filter(l3, Survives(BillRequestedEvent, None));
    assert e[0] == NewOrderEvent;
    assert WithoutEvents(listeners, e) == WithoutEvents(l1, e[1..]);
    assert e[1..][0] == OrdersPage.OrderStatusEvent;
    assert WithoutEvents(l1, e[1..]) == WithoutEvents(l2, e[2..]);
    assert e[2..][0] == TableStatusEvent;
    assert WithoutEvents(l2, e[2..]) == WithoutEvents(l3, e[3..]);
    assert e[3..][0] == BillRequestedEvent;
    assert WithoutEvents(l3, e[3..]) == WithoutEvents(l4, e[4..]);
    assert e[4..] == [];
  }
}
