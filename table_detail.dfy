/** The staff table page of `TableDetailPage.tsx`: the normalised order list,
    the "Generate Bill" target and when that button is disabled. */
module TableDetail {
  import opened Types
  import opened Seqs
  import OrderDetail

  /** The list mapping: `items` from `orderItems` (or empty) and `totalAmount`
      from `total` unless that is 0/absent. Unlike the order page, `taxAmount`
      is left as received. */
  function NormaliseListed(o: Order): (n: Order)
    ensures n.items == o.orderItems.GetOr([])
    ensures n.taxAmount == o.taxAmount
    ensures n.(items := o.items, totalAmount := o.totalAmount) == o
  {
    o.(items := o.orderItems.GetOr([]), totalAmount := if o.total != 0 then o.total else o.totalAmount)
  }

  /** The list mapping agrees with the order page's, except for `taxAmount`. */
  lemma ListedAgreesWithDetail(o: Order)
    ensures NormaliseListed(o) == OrderDetail.NormaliseOrder(o).(taxAmount := o.taxAmount)
  {
  }

  /** `ordersRes.data.map(...)`: same length and order. */
  function NormaliseAll(orders: seq<Order>): (r: seq<Order>)
    ensures |r| == |orders|
    ensures forall k :: 0 <= k < |orders| ==> r[k] == NormaliseListed(orders[k])
  {
    if orders == [] then [] else [NormaliseListed(orders[0])] + NormaliseAll(orders[1..])
  }

  predicate NotCancelled(o: Order)
  {
    o.status != Cancelled
  }

  /** `orders.filter(o => o.status !== 'CANCELLED')` */
  function ActiveOrders(orders: seq<Order>): seq<Order>
  {
    Filter(orders, NotCancelled)
  }

  /** `handleGenerateBill`: the billing route of the first order that is not
      cancelled, or no navigation when every order is cancelled. */
  function GenerateBillTarget(orders: seq<Order>): (r: Option<string>)
  {
    var active := ActiveOrders(orders);
    if |active| > 0 then Some("/restaurant/billing/" + active[0].id) else None
  }

  /** The target is the first non-cancelled order: every order before it is
      cancelled. There is no target iff every order is cancelled. */
  lemma {:induction false} GenerateBillPicksFirstActive(orders: seq<Order>)
    ensures GenerateBillTarget(orders).None? <==> forall k :: 0 <= k < |orders| ==> orders[k].status == Cancelled
    ensures GenerateBillTarget(orders).Some? ==>
              exists i :: 0 <= i < |orders| && orders[i].status != Cancelled &&
                          GenerateBillTarget(orders) == Some("/restaurant/billing/" + orders[i].id) &&
                          forall k :: 0 <= k < i ==> orders[k].status == Cancelled
  {
    if orders != [] {
      GenerateBillPicksFirstActive(orders[1..]);
      assert forall k :: 0 <= k < |orders| - 1 ==> orders[1..][k] == orders[k + 1];
      if orders[0].status == Cancelled {
        assert ActiveOrders(orders) == ActiveOrders(orders[1..]);
        if GenerateBillTarget(orders[1..]).Some? {
          var i :| 0 <= i < |orders[1..]| && orders[1..][i].status != Cancelled &&
                   GenerateBillTarget(orders[1..]) == Some("/restaurant/billing/" + orders[1..][i].id) &&
                   forall k :: 0 <= k < i ==> orders[1..][k].status == Cancelled;
          assert forall k :: 0 <= k < i + 1 ==> orders[k].status == Cancelled;
        }
      } else {
        assert ActiveOrders(orders)[0] == orders[0];
      }
    }
  }

  /** The button is disabled exactly when there is nothing to bill. */
  predicate GenerateBillDisabled(orders: seq<Order>)
  {
    |ActiveOrders(orders)| == 0
  }

  lemma DisabledIffNoTarget(orders: seq<Order>)
    ensures GenerateBillDisabled(orders) <==> GenerateBillTarget(orders).None?
  {
  }

  /** Normalising the list does not change which order is billed. */
  lemma {:induction false} NormaliseKeepsTarget(orders: seq<Order>)
    ensures GenerateBillTarget(NormaliseAll(orders)) == GenerateBillTarget(orders)
  {
    if orders != [] {
      NormaliseKeepsTarget(orders[1..]);
      assert NormaliseAll(orders)[1..] == NormaliseAll(orders[1..]);
    }
  }
}
