/** The customer's bill page of `BillRequestPage.tsx`: which orders it bills,
    the three sums it shows, and the bill request it sends. */
module BillRequest {
  import opened Types
  import opened Seqs
  import opened Socket

  predicate IsUnpaid(o: Order)
  {
    o.paymentStatus == Unpaid
  }

  /** The orders the page bills: the table's unpaid orders, in the order received. */
  function UnpaidOrders(orders: seq<Order>): seq<Order>
  {
    Filter(orders, IsUnpaid)
  }

  /** An order is billed iff it was received and is unpaid; billed orders keep
      their relative order. */
  lemma UnpaidOrdersMembers(orders: seq<Order>, more: seq<Order>)
    ensures forall o :: o in UnpaidOrders(orders) <==> o in orders && o.paymentStatus == Unpaid
    ensures UnpaidOrders(orders + more) == UnpaidOrders(orders) + UnpaidOrders(more)
  {
    FilterMembers(orders, IsUnpaid);
    FilterAppend(orders, more, IsUnpaid);
  }

  function OrderSubtotal(o: Order): int { o.subtotal }

  /** `order.taxAmount || 0` */
  function OrderTax(o: Order): int { o.taxAmount.GetOr(0) }

  function OrderTotal(o: Order): int { o.totalAmount }

  /** `calculateSubtotal` */
  function Subtotal(orders: seq<Order>): (r: int)
    ensures orders == [] ==> r == 0
  {
    SumOf(orders, OrderSubtotal)
  }

  /** `calculateTax`: an order without a tax amount counts as 0. */
  function Tax(orders: seq<Order>): (r: int)
    ensures orders == [] ==> r == 0
    ensures (forall k :: 0 <= k < |orders| ==> orders[k].taxAmount.None?) ==> r == 0
  {
    NoTaxSumsToZero(orders);
    SumOf(orders, OrderTax)
  }

  lemma {:induction false} NoTaxSumsToZero(orders: seq<Order>)
    ensures (forall k :: 0 <= k < |orders| ==> orders[k].taxAmount.None?) ==> SumOf(orders, OrderTax) == 0
  {
    if orders != [] {
      NoTaxSumsToZero(orders[1..]);
      if forall k :: 0 <= k < |orders| ==> orders[k].taxAmount.None? {
        assert forall k :: 0 <= k < |orders| - 1 ==> orders[1..][k] == orders[k + 1];
      }
    }
  }

  /** `calculateTotal` */
  function Total(orders: seq<Order>): (r: int)
    ensures orders == [] ==> r == 0
  {
    SumOf(orders, OrderTotal)
  }

  /** When every billed order's total is its subtotal plus its tax, the bill's
      total is the bill's subtotal plus the bill's tax. */
  lemma {:induction false} TotalIsSubtotalPlusTax(orders: seq<Order>)
    requires forall k :: 0 <= k < |orders| ==> orders[k].totalAmount == orders[k].subtotal + OrderTax(orders[k])
    ensures Total(orders) == Subtotal(orders) + Tax(orders)
  {
    if orders != [] {
      assert forall k :: 0 <= k < |orders| - 1 ==> orders[1..][k] == orders[k + 1];
      TotalIsSubtotalPlusTax(orders[1..]);
    }
  }

  /** Summing over a split list is summing each part, so the bill of two
      batches of orders is the sum of their bills. */
  lemma BillOfBatches(a: seq<Order>, b: seq<Order>)
    ensures Subtotal(UnpaidOrders(a + b)) == Subtotal(UnpaidOrders(a)) + Subtotal(UnpaidOrders(b))
    ensures Tax(UnpaidOrders(a + b)) == Tax(UnpaidOrders(a)) + Tax(UnpaidOrders(b))
    ensures Total(UnpaidOrders(a + b)) == Total(UnpaidOrders(a)) + Total(UnpaidOrders(b))
  {
    FilterAppend(a, b, IsUnpaid);
    SumOfAppend(UnpaidOrders(a), UnpaidOrders(b), OrderSubtotal);
    SumOfAppend(UnpaidOrders(a), UnpaidOrders(b), OrderTax);
    SumOfAppend(UnpaidOrders(a), UnpaidOrders(b), OrderTotal);
  }

  const BillRequestedEvent := "billRequested"

  /** The page's own state */
  class BillPage {
    var billRequested: bool

    constructor ()
      ensures !billRequested
    {
      billRequested := false;
    }

    /** `handleRequestBill` as written: with a table id it emits the request
        and sets the flag; without one nothing happens. The page never
        connects the socket, and the emit is skipped while no socket exists,
        so on a socket no page has connected the flag is set but nothing is
        sent. */
    method RequestBill(socket: SocketService, tableId: Option<string>)
      requires socket.Valid()
      modifies this, socket
      ensures socket.Valid() && socket.connected == old(socket.connected) && socket.listeners == old(socket.listeners)
      ensures tableId.None? ==> billRequested == old(billRequested) && socket.emitted == old(socket.emitted)
      ensures tableId.Some? ==> billRequested
      ensures tableId.Some? && socket.connected ==>
                socket.emitted == old(socket.emitted) + [Emission(BillRequestedEvent, tableId.value)]
      ensures tableId.Some? && !socket.connected ==> socket.emitted == old(socket.emitted)
    {
      if tableId.Some? {
        socket.Emit(BillRequestedEvent, tableId.value);
        billRequested := true;
      }
    }

    /** The request as evidently intended: connect first (a no-op when a
        socket exists), so that whenever the flag is set the request has been
        sent exactly once. */
    method RequestBillConnected(socket: SocketService, tableId: Option<string>)
      requires socket.Valid()
      modifies this, socket
      ensures socket.Valid()
      ensures tableId.None? ==>
                billRequested == old(billRequested) && socket.emitted == old(socket.emitted) &&
                socket.connected == old(socket.connected) && socket.listeners == old(socket.listeners)
      ensures tableId.Some? ==>
                billRequested && socket.connected &&
                socket.emitted == old(socket.emitted) + [Emission(BillRequestedEvent, tableId.value)]
    {
      if tableId.Some? {
        socket.Connect();
        socket.Emit(BillRequestedEvent, tableId.value);
        billRequested := true;
      }
    }
  }

  /** A fresh customer session (no page has connected the socket): requesting
      the bill for table "t1" sets the flag and sends nothing. */
  method LostBillRequest() returns (flag: bool, sent: seq<Emission>)
    ensures flag && sent == []
  {
    var socket := new SocketService();
    var page := new BillPage();
    page.RequestBill(socket, Some("t1"));
    flag, sent := page.billRequested, socket.emitted;
  }

  /** The same session with the corrected request: the request is sent. */
  method DeliveredBillRequest() returns (flag: bool, sent: seq<Emission>)
    ensures flag && sent == [Emission(BillRequestedEvent, "t1")]
  {
    var socket := new SocketService();
    var page := new BillPage();
    page.RequestBillConnected(socket, Some("t1"));
    flag, sent := page.billRequested, socket.emitted;
  }
}
