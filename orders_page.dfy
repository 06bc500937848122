/** The customer's order list of `OrdersPage.tsx`: the two real-time handlers
    that patch the list, and the page's subscriptions. */
module OrdersPage {
  import opened Types
  import opened Seqs
  import opened Socket

  /** `handleOrderUpdate`: every order with the event's id gets the event's
      status and nothing else changes; every other order is kept as it was.
      The list keeps its length and order, and nothing is inserted. */
  function HandleOrderUpdate(orders: seq<Order>, orderId: string, status: OrderStatus): (r: seq<Order>)
    ensures |r| == |orders|
    ensures forall k :: 0 <= k < |orders| && orders[k].id == orderId ==> r[k] == orders[k].(status := status)
    ensures forall k :: 0 <= k < |orders| && orders[k].id != orderId ==> r[k] == orders[k]
  {
    MapWhere(orders, (o: Order) => o.id == orderId, (o: Order) => o.(status := status))
  }

  /** An event for an order not in the list changes nothing. */
  lemma OrderUpdateUnknownId(orders: seq<Order>, orderId: string, status: OrderStatus)
    requires forall k :: 0 <= k < |orders| ==> orders[k].id != orderId
    ensures HandleOrderUpdate(orders, orderId, status) == orders
  {
  }

  /** Only the latest event for an order counts: a second event for the same
      order overrides the first. */
  lemma OrderUpdateLatestWins(orders: seq<Order>, orderId: string, s1: OrderStatus, s2: OrderStatus)
    ensures HandleOrderUpdate(HandleOrderUpdate(orders, orderId, s1), orderId, s2)
            == HandleOrderUpdate(orders, orderId, s2)
  {
  }

  /** `kots.map(...)`: every ticket with the event's id gets the event's status. */
  function PatchKots(kots: seq<Kot>, kotId: string, status: KotStatus): (r: seq<Kot>)
    ensures |r| == |kots|
    ensures forall k :: 0 <= k < |kots| && kots[k].id == kotId ==> r[k] == kots[k].(status := status)
    ensures forall k :: 0 <= k < |kots| && kots[k].id != kotId ==> r[k] == kots[k]
  {
    MapWhere(kots, (t: Kot) => t.id == kotId, (t: Kot) => t.(status := status))
  }

  /** `{ ...order, kots: order.kots?.map(...) }`: the order's tickets patched,
      an order without tickets left as it is. */
  function WithKotPatched(o: Order, kotId: string, status: KotStatus): Order
  {
    o.(kots := if o.kots.Some? then Some(PatchKots(o.kots.value, kotId, status)) else None)
  }

  /** `handleKOTUpdate`: the ticket patch applied to every order; apart from
      their tickets the orders are unchanged, and so are the list's length and order. */
  function HandleKotUpdate(orders: seq<Order>, kotId: string, status: KotStatus): (r: seq<Order>)
    ensures |r| == |orders|
    ensures forall k :: 0 <= k < |orders| ==> r[k] == WithKotPatched(orders[k], kotId, status)
    ensures forall k :: 0 <= k < |orders| ==> r[k].(kots := orders[k].kots) == orders[k]
  {
    if orders == [] then []
    else [WithKotPatched(orders[0], kotId, status)] + HandleKotUpdate(orders[1..], kotId, status)
  }

  /** After a ticket event, every ticket with that id, in every order, has the
      event's status, and every other ticket is as it was. */
  lemma KotUpdateSetsMatching(orders: seq<Order>, kotId: string, status: KotStatus, i: int, j: int)
    requires 0 <= i < |orders| && orders[i].kots.Some? && 0 <= j < |orders[i].kots.value|
    ensures var r := HandleKotUpdate(orders, kotId, status);
            r[i].kots.Some? && |r[i].kots.value| == |orders[i].kots.value| &&
            (orders[i].kots.value[j].id == kotId ==> r[i].kots.value[j].status == status) &&
            (orders[i].kots.value[j].id != kotId ==> r[i].kots.value[j] == orders[i].kots.value[j])
  {
  }

  /** A ticket event whose id no order holds leaves the list unchanged. */
  lemma KotUpdateUnknownId(orders: seq<Order>, kotId: string, status: KotStatus)
    requires forall i, j :: 0 <= i < |orders| && orders[i].kots.Some? && 0 <= j < |orders[i].kots.value|
               ==> orders[i].kots.value[j].id != kotId
    ensures HandleKotUpdate(orders, kotId, status) == orders
  {
    var r := HandleKotUpdate(orders, kotId, status);
    forall i | 0 <= i < |orders| ensures r[i] == orders[i] {
      if orders[i].kots.Some? {
        assert PatchKots(orders[i].kots.value, kotId, status) == orders[i].kots.value;
      }
    }
  }

  const OrderStatusEvent := "orderStatusUpdated"
  const KotStatusEvent := "kotStatusUpdated"

  /** The page's listeners, in registration order */
  const PageListeners: seq<Listener> :=
    [Listener(OrderStatusEvent, OrderUpdateHandler), Listener(KotStatusEvent, KotUpdateHandler)]

  /** Mount: join the table's room when there is a table id, then register
      both handlers. The page never connects the socket itself, so on a socket
      that no page has connected nothing is joined or registered. */
  method Mount(socket: SocketService, tableId: Option<string>)
    requires socket.Valid()
    modifies socket
    ensures socket.Valid() && socket.connected == old(socket.connected)
    ensures socket.connected ==> socket.listeners == old(socket.listeners) + PageListeners
    ensures socket.connected && tableId.Some? ==>
              socket.emitted == old(socket.emitted) + [Emission(JoinTableEvent, tableId.value)]
    ensures !socket.connected || tableId.None? ==> socket.emitted == old(socket.emitted)
    ensures !socket.connected ==> socket.listeners == old(socket.listeners)
  {
    if tableId.Some? {
      socket.Emit(JoinTableEvent, tableId.value);
    }
    socket.On(OrderStatusEvent, OrderUpdateHandler);
    socket.On(KotStatusEvent, KotUpdateHandler);
  }

  /** Cleanup: leave the table's room and remove exactly the two handlers. */
  method Cleanup(socket: SocketService, tableId: Option<string>)
    requires socket.Valid()
    modifies socket
    ensures socket.Valid() && socket.connected == old(socket.connected)
    ensures socket.connected ==>
              socket.listeners == Filter(Filter(old(socket.listeners), Survives(OrderStatusEvent, Some(OrderUpdateHandler))),
                                         Survives(KotStatusEvent, Some(KotUpdateHandler)))
    ensures socket.connected && tableId.Some? ==>
              socket.emitted == old(socket.emitted) + [Emission(LeaveTableEvent, tableId.value)]
    ensures !socket.connected ==> socket.listeners == old(socket.listeners) && socket.emitted == old(socket.emitted)
  {
    if tableId.Some? {
      socket.Emit(LeaveTableEvent, tableId.value);
    }
    socket.Off(OrderStatusEvent, Some(OrderUpdateHandler));
    socket.Off(KotStatusEvent, Some(KotUpdateHandler));
  }

  /** Cleanup after mount restores the listeners the page found, when neither
      handler was registered before. */
  lemma CleanupUndoesMount(before: seq<Listener>)
    requires Listener(OrderStatusEvent, OrderUpdateHandler) !in before
    requires Listener(KotStatusEvent, KotUpdateHandler) !in before
    ensures Filter(Filter(before + PageListeners, Survives(OrderStatusEvent, Some(OrderUpdateHandler))),
                   Survives(KotStatusEvent, Some(KotUpdateHandler))) == before
  {
    var a := Listener(OrderStatusEvent, OrderUpdateHandler);
    var b := Listener(KotStatusEvent, KotUpdateHandler);
    assert before + PageListeners == (before + [a]) + [b];
    var p := Survives(OrderStatusEvent, Some(OrderUpdateHandler));
    FilterAppend(before + [a], [b], p);
    OffUndoesOn(before, OrderStatusEvent, OrderUpdateHandler);
    assert Filter([b], p) == [b];
    OffUndoesOn(before, KotStatusEvent, KotUpdateHandler);
  }
}
