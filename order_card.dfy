/** The order card of `OrderCard.tsx`: its item preview and its status
    colour and icon. */
module OrderCard {
  import opened Types

  /** `items.slice(0, 3)`: the first three items at most, in order. */
  function Preview(items: seq<OrderItem>): (r: seq<OrderItem>)
    ensures |r| <= 3 && r <= items
    ensures |items| <= 3 ==> r == items
    ensures |items| > 3 ==> |r| == 3
  {
    if |items| <= 3 then items else items[..3]
  }

  /** The "+N more items" note: shown iff there are more than three items,
      with N the number not listed. */
  function MoreCount(items: seq<OrderItem>): (r: Option<int>)
    ensures r.Some? <==> |items| > 3
    ensures r.Some? ==> r.value >= 1
  {
    if |items| > 3 then Some(|items| - 3) else None
  }

  /** Listed items plus the hidden count make up every item. */
  lemma PreviewAndMoreCoverAll(items: seq<OrderItem>)
    ensures |Preview(items)| + MoreCount(items).GetOr(0) == |items|
    ensures Preview(items) + items[|Preview(items)|..] == items
  {
  }

  const PendingColor := "bg-yellow-100 text-yellow-800 border-yellow-300"
  const InProgressColor := "bg-blue-100 text-blue-800 border-blue-300"
  const ReadyColor := "bg-green-100 text-green-800 border-green-300"
  const NeutralColor := "bg-gray-100 text-gray-800 border-gray-300"

  /** `getStatusColor`: CONFIRMED and PREPARING share blue; SERVED and every
      status not listed share the neutral grey. */
  function StatusColor(s: OrderStatus): (c: string)
    ensures c == PendingColor <==> s == Pending
    ensures c == InProgressColor <==> s == Confirmed || s == Preparing
    ensures c == ReadyColor <==> s == Ready
    ensures c == NeutralColor <==> !(s.Pending? || s.Confirmed? || s.Preparing? || s.Ready?)
  {
    match s
    case Pending => PendingColor
    case Confirmed => InProgressColor
    case Preparing => InProgressColor
    case Ready => ReadyColor
    case Served => NeutralColor
    case _ => NeutralColor
  }

  datatype Icon = ClockIcon | ChefHatIcon | CheckCircleIcon

  /** `getStatusIcon`: READY and SERVED share the check; PREPARING has the
      chef's hat; every other status, CONFIRMED and unknown ones included,
      gets the clock. */
  function StatusIcon(s: OrderStatus): (i: Icon)
    ensures i == CheckCircleIcon <==> s == Ready || s == Served
    ensures i == ChefHatIcon <==> s == Preparing
    ensures i == ClockIcon <==> !(s.Preparing? || s.Ready? || s.Served?)
  {
    match s
    case Pending => ClockIcon
    case Preparing => ChefHatIcon
    case Ready => CheckCircleIcon
    case Served => CheckCircleIcon
    case _ => ClockIcon
  }

  /** A card's colour and icon together tell apart PENDING, CONFIRMED,
      PREPARING and READY; SERVED looks like an unknown status except for its icon. */
  lemma CardDistinguishesActiveStatuses(s1: OrderStatus, s2: OrderStatus)
    requires s1.Pending? || s1.Confirmed? || s1.Preparing? || s1.Ready?
    ensures (StatusColor(s1), StatusIcon(s1)) == (StatusColor(s2), StatusIcon(s2)) <==> s1 == s2
  {
  }
}
