/** The cart panel of `CartView.tsx`: the footer amounts, the order request
    built at checkout, and the wiring of its buttons into the cart store. */
module CartView {
  import opened Types
  import opened Seqs
  import opened CartStore

  /** The amounts the footer shows, before `toFixed` formatting */
  datatype Summary = Summary(subtotal: real, tax: real, total: real)

  /** GST rate applied to the cart total */
  const TaxRate: real := 0.18

  /** Footer amounts: the subtotal is the store's total, tax is 18% of it and
      the total is subtotal plus tax, i.e. 118% of the subtotal. */
  function Totals(items: seq<CartItem>): (s: Summary)
    ensures s.subtotal == SumOf(items, LineTotal) as real
    ensures s.tax == s.subtotal * TaxRate
    ensures s.total == s.subtotal * 1.18
    ensures items == [] ==> s == Summary(0.0, 0.0, 0.0)
  {
    var subtotal := SumOf(items, LineTotal) as real;
    Summary(subtotal, subtotal * TaxRate, subtotal + subtotal * TaxRate)
  }

  /** Adding a line raises the footer total by 118% of the change in the
      store's total. */
  lemma TotalsTrackAdd(items: seq<CartItem>, candidate: CartItem)
    ensures Totals(AddLine(items, candidate)).total - Totals(items).total
            == (SumOf(AddLine(items, candidate), LineTotal) - SumOf(items, LineTotal)) as real * 1.18
  {
  }

  /** One entry of the order request */
  datatype PayloadItem = PayloadItem(
    menuItemId: string,
    variationId: Option<string>,
    quantity: int,
    addonIds: seq<string>,
    specialInstructions: Option<string>)

  /** The body posted to `/orders` */
  datatype OrderRequest = OrderRequest(
    restaurantId: string,
    tableId: string,
    customerId: string,
    items: seq<PayloadItem>)

  /** `addons.map(a => a.id)` */
  function AddonIds(addons: seq<Addon>): (ids: seq<string>)
    ensures |ids| == |addons|
    ensures forall k :: 0 <= k < |addons| ==> ids[k] == addons[k].id
  {
    if addons == [] then [] else [addons[0].id] + AddonIds(addons[1..])
  }

  /** The entry for one cart line: it names the line's key, so the backend
      sees the same (menu item, variation) pairs as the cart. */
  function PayloadItemOf(line: CartItem): (p: PayloadItem)
    ensures LineKey(p.menuItemId, p.variationId) == KeyOf(line)
    ensures p.quantity == line.quantity && p.specialInstructions == line.specialInstructions
    ensures |p.addonIds| == |line.addons|
    ensures forall k :: 0 <= k < |line.addons| ==> p.addonIds[k] == line.addons[k].id
  {
    PayloadItem(line.menuItem.id, VariationId(line.variation), line.quantity,
                AddonIds(line.addons), line.specialInstructions)
  }

  /** `items.map(...)`: one entry per cart line, in cart order. */
  function Payload(items: seq<CartItem>): (r: seq<PayloadItem>)
    ensures |r| == |items|
    ensures forall k :: 0 <= k < |items| ==> r[k] == PayloadItemOf(items[k])
  {
    if items == [] then [] else [PayloadItemOf(items[0])] + Payload(items[1..])
  }

  function PayloadQuantity(p: PayloadItem): int { p.quantity }

  function PayloadKey(p: PayloadItem): LineKey { LineKey(p.menuItemId, p.variationId) }

  /** The request orders exactly as many units as the cart's item count. */
  lemma {:induction false} PayloadCarriesItemCount(items: seq<CartItem>)
    ensures SumOf(Payload(items), PayloadQuantity) == SumOf(items, LineQuantity)
  {
    if items != [] {
      PayloadCarriesItemCount(items[1..]);
    }
  }

  /** A cart with one line per key yields a request with one entry per key. */
  lemma PayloadKeysUnique(items: seq<CartItem>)
    requires KeysUnique(items)
    ensures UniqueBy(Payload(items), PayloadKey)
  {
    var r := Payload(items);
    forall i, j | 0 <= i < j < |r| ensures PayloadKey(r[i]) != PayloadKey(r[j]) {
      assert KeyOf(items[i]) != KeyOf(items[j]);
    }
  }

  /** What checkout ends in */
  datatype CheckoutOutcome =
    | NoCustomer
    | Placed(request: OrderRequest, navigateTo: string)
    | PostFailed(request: OrderRequest)

  /** The customer's order list route */
  function OrdersPath(restaurantId: string, tableId: string): string
  {
    "/order/" + restaurantId + "/" + tableId + "/orders"
  }

  /** `handleCheckout`. Whether the post succeeds is a parameter. Without a
      customer nothing is sent and nothing changes; otherwise the request holds
      the cart's payload, and the cart is cleared only when the post succeeds. */
  method Checkout(cart: Cart, customer: Option<Customer>, restaurantId: string, tableId: string, postSucceeds: bool)
    returns (outcome: CheckoutOutcome)
    modifies cart
    ensures customer.None? ==> outcome == NoCustomer && cart.items == old(cart.items)
    ensures customer.Some? && postSucceeds ==>
              outcome == Placed(OrderRequest(restaurantId, tableId, customer.value.id, Payload(old(cart.items))),
                                OrdersPath(restaurantId, tableId))
              && cart.items == []
    ensures customer.Some? && !postSucceeds ==>
              outcome == PostFailed(OrderRequest(restaurantId, tableId, customer.value.id, Payload(old(cart.items))))
              && cart.items == old(cart.items)
  {
    if customer.None? {
      return NoCustomer;
    }
    var request := OrderRequest(restaurantId, tableId, customer.value.id, Payload(cart.items));
    if postSucceeds {
      cart.ClearCart();
      outcome := Placed(request, OrdersPath(restaurantId, tableId));
    } else {
      outcome := PostFailed(request);
    }
  }

  /** The checkout button is disabled while an order is in flight or when the
      cart has no lines. */
  predicate CheckoutDisabled(loading: bool, items: seq<CartItem>)
  {
    loading || |items| == 0
  }

  /** When idle, checkout is offered exactly for a non-empty cart. */
  lemma IdleCheckoutEnabledIffNonEmpty(items: seq<CartItem>)
    ensures !CheckoutDisabled(false, items) <==> items != []
  {
  }

  /** Minus on line `i` at quantity 1 removes that line and keeps the rest in order. */
  lemma MinusAtOneRemovesLine(items: seq<CartItem>, i: int)
    requires KeysUnique(items) && 0 <= i < |items| && items[i].quantity == 1
    ensures SetQuantity(items, KeyOf(items[i]), items[i].quantity - 1) == items[..i] + items[i+1..]
  {
    SetQuantityNonPositiveRemoves(items, KeyOf(items[i]), 0);
    RemoveUniqueDropsOne(items, i);
  }

  /** Minus on line `i` above quantity 1 lowers it by one and reprices it; the
      item count drops by one. */
  lemma MinusAboveOneDecrements(items: seq<CartItem>, i: int)
    requires KeysUnique(items) && 0 <= i < |items| && items[i].quantity > 1
    ensures var r := SetQuantity(items, KeyOf(items[i]), items[i].quantity - 1);
            |r| == |items| && r[i].quantity == items[i].quantity - 1
            && r[i].totalPrice == (items[i].quantity - 1) * UnitPrice(items[i])
            && SumOf(r, LineQuantity) == SumOf(items, LineQuantity) - 1
  {
    SetQuantityPositive(items, i, items[i].quantity - 1);
  }

  /** Plus on line `i` raises it by one and reprices it; the item count rises by one. */
  lemma PlusIncrements(items: seq<CartItem>, i: int)
    requires KeysUnique(items) && 0 <= i < |items| && items[i].quantity >= 0
    ensures var r := SetQuantity(items, KeyOf(items[i]), items[i].quantity + 1);
            |r| == |items| && r[i].quantity == items[i].quantity + 1
            && r[i].totalPrice == (items[i].quantity + 1) * UnitPrice(items[i])
            && SumOf(r, LineQuantity) == SumOf(items, LineQuantity) + 1
  {
    SetQuantityPositive(items, i, items[i].quantity + 1);
  }

  /** The minus button of line `i` */
  method PressMinus(cart: Cart, i: int)
    requires 0 <= i < |cart.items|
    modifies cart
    ensures cart.items == SetQuantity(old(cart.items), KeyOf(old(cart.items)[i]), old(cart.items)[i].quantity - 1)
    ensures KeysUnique(old(cart.items)) && old(cart.items)[i].quantity == 1 ==>
              cart.items == old(cart.items)[..i] + old(cart.items)[i+1..]
  {
    var line := cart.items[i];
    cart.UpdateQuantity(line.menuItem.id, line.quantity - 1, VariationId(line.variation));
    if KeysUnique(old(cart.items)) && line.quantity == 1 {
      MinusAtOneRemovesLine(old(cart.items), i);
    }
  }

  /** The plus button of line `i` */
  method PressPlus(cart: Cart, i: int)
    requires 0 <= i < |cart.items|
    modifies cart
    ensures cart.items == SetQuantity(old(cart.items), KeyOf(old(cart.items)[i]), old(cart.items)[i].quantity + 1)
  {
    var line := cart.items[i];
    cart.UpdateQuantity(line.menuItem.id, line.quantity + 1, VariationId(line.variation));
  }

  /** The remove button of line `i`: with one line per key, exactly that line goes. */
  method PressRemove(cart: Cart, i: int)
    requires 0 <= i < |cart.items|
    modifies cart
    ensures cart.items == RemoveKey(old(cart.items), KeyOf(old(cart.items)[i]))
    ensures KeysUnique(old(cart.items)) ==> cart.items == old(cart.items)[..i] + old(cart.items)[i+1..]
  {
    var line := cart.items[i];
    cart.RemoveItem(line.menuItem.id, VariationId(line.variation));
    if KeysUnique(old(cart.items)) {
      RemoveUniqueDropsOne(old(cart.items), i);
    }
  }
}
