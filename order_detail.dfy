/** The staff order page of `OrderDetailPage.tsx`: how a loaded order is
    normalised, which status change its buttons offer, and what a status
    update does to the order it holds. */
module OrderDetail {
  import opened Types

  /** The load mapping: `items` from `orderItems` (or empty), `totalAmount`
      from `total` unless that is 0/absent, `taxAmount` from `tax` unless that
      is 0/absent. Every other field is kept. */
  function NormaliseOrder(o: Order): (n: Order)
    ensures n.items == o.orderItems.GetOr([])
    ensures o.total != 0 ==> n.totalAmount == o.total
    ensures o.total == 0 ==> n.totalAmount == o.totalAmount
    ensures o.tax != 0 ==> n.taxAmount == Some(o.tax)
    ensures o.tax == 0 ==> n.taxAmount == o.taxAmount
    ensures n.(items := o.items, totalAmount := o.totalAmount, taxAmount := o.taxAmount) == o
  {
    o.(items := o.orderItems.GetOr([]),
       totalAmount := if o.total != 0 then o.total else o.totalAmount,
       taxAmount := if o.tax != 0 then Some(o.tax) else o.taxAmount)
  }

  /** Normalising an already normalised order changes nothing. */
  lemma NormaliseIdempotent(o: Order)
    ensures NormaliseOrder(NormaliseOrder(o)) == NormaliseOrder(o)
  {
  }

  /** The status the page's primary button moves the order to, if any:
      PENDING to CONFIRMED, CONFIRMED to PREPARING, PREPARING to READY and
      READY to SERVED; SERVED, CANCELLED and unknown statuses offer none. */
  function NextStatus(s: OrderStatus): (r: Option<OrderStatus>)
    ensures r.None? <==> !(s.Pending? || s.Confirmed? || s.Preparing? || s.Ready?)
  {
    match s
    case Pending => Some(Confirmed)
    case Confirmed => Some(Preparing)
    case Preparing => Some(Ready)
    case Ready => Some(Served)
    case _ => None
  }

  /** KOT generation is offered only for a pending order. */
  predicate OffersKot(s: OrderStatus)
  {
    s == Pending
  }

  /** The KOT button sits beside the confirm button: it is offered exactly
      when confirming is. */
  lemma KotOfferedWithConfirm(s: OrderStatus)
    ensures OffersKot(s) <==> NextStatus(s) == Some(Confirmed)
  {
  }

  /** Statuses on the served path */
  predicate OnServicePath(s: OrderStatus)
  {
    s.Pending? || s.Confirmed? || s.Preparing? || s.Ready? || s.Served?
  }

  /** Position on the served path, PENDING = 0 up to SERVED = 4 */
  function Rank(s: OrderStatus): (r: nat)
    requires OnServicePath(s)
    ensures r <= 4 && (r == 4 <==> s == Served)
  {
    match s
    case Pending => 0
    case Confirmed => 1
    case Preparing => 2
    case Ready => 3
    case Served => 4
  }

  /** Each offered step stays on the path and moves exactly one place along it;
      only SERVED, off the path's end, offers nothing. */
  lemma NextStatusAdvancesRank(s: OrderStatus)
    requires OnServicePath(s)
    ensures NextStatus(s).Some? <==> s != Served
    ensures NextStatus(s).Some? ==> OnServicePath(NextStatus(s).value) && Rank(NextStatus(s).value) == Rank(s) + 1
  {
  }

  /** Status after pressing the offered button `n` times (stopping where no
      button is offered) */
  function Advance(s: OrderStatus, n: nat): OrderStatus
    decreases n
  {
    if n == 0 then s
    else match NextStatus(s)
      case Some(t) => Advance(t, n - 1)
      case None => s
  }

  /** Following the buttons from a status on the path, `n` presses (no more
      than the path has left) raise the rank by exactly `n`. */
  lemma {:induction false} AdvanceRaisesRank(s: OrderStatus, n: nat)
    requires OnServicePath(s) && n <= 4 - Rank(s)
    ensures OnServicePath(Advance(s, n)) && Rank(Advance(s, n)) == Rank(s) + n
    decreases n
  {
    if n > 0 {
      NextStatusAdvancesRank(s);
      AdvanceRaisesRank(NextStatus(s).value, n - 1);
    }
  }

  /** From any status on the path, SERVED is reached after exactly 4 − rank
      presses, so within 4. */
  lemma AdvanceReachesServed(s: OrderStatus)
    requires OnServicePath(s)
    ensures Advance(s, 4 - Rank(s)) == Served
  {
    AdvanceRaisesRank(s, 4 - Rank(s));
  }

  /** Two different press counts along the path give different statuses. */
  lemma NeverRevisits(s: OrderStatus, i: nat, j: nat)
    requires OnServicePath(s) && i < j <= 4 - Rank(s)
    ensures Advance(s, i) != Advance(s, j)
  {
    AdvanceRaisesRank(s, i);
    AdvanceRaisesRank(s, j);
  }

  /** A cancelled order never moves. */
  lemma CancelledIsFinal(n: nat)
    ensures Advance(Cancelled, n) == Cancelled
  {
  }

  /** `handleUpdateStatus`: when the patch request succeeds the held order
      gets the new status and nothing else; on failure, or with no order
      held, it stays as it was. */
  function UpdateHeldStatus(held: Option<Order>, status: OrderStatus, succeeded: bool): (r: Option<Order>)
    ensures !succeeded || held.None? ==> r == held
    ensures succeeded && held.Some? ==> r == Some(held.value.(status := status))
  {
    if succeeded && held.Some? then Some(held.value.(status := status)) else held
  }

  /** Pressing the offered button with a successful request moves the held
      order one place along the path and changes no other field. */
  lemma PressMovesOnePlace(o: Order)
    requires OnServicePath(o.status) && o.status != Served
    ensures var r := UpdateHeldStatus(Some(o), NextStatus(o.status).value, true);
            r.Some? && r.value.(status := o.status) == o &&
            OnServicePath(r.value.status) && Rank(r.value.status) == Rank(o.status) + 1
  {
    NextStatusAdvancesRank(o.status);
  }
}
