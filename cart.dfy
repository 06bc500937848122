/** The cart store (`useCartStore`): a sequence of cart lines keyed by
    (menu item id, variation id), with merge-on-add, removal, quantity update
    and the two derived folds.

    The store's actions are the methods of class `Cart`; each is specified by a
    function of the old line sequence (`AddLine`, `RemoveKey`, `SetQuantity`),
    and the lemmas below state what the store promises about those functions. */
module CartStore {
  import opened Types
  import opened Seqs

  /** A line's identity. Add-ons and notes do not take part in it. */
  datatype LineKey = LineKey(menuItemId: string, variationId: Option<string>)

  /** `variation?.id` */
  function VariationId(v: Option<Variation>): Option<string>
  {
    if v.Some? then Some(v.value.id) else None
  }

  function KeyOf(line: CartItem): LineKey
  {
    LineKey(line.menuItem.id, VariationId(line.variation))
  }

  /** `variation?.price || menuItem.price`: with no variation, or a variation
      priced 0, the menu item's own price is used. */
  function UnitPrice(line: CartItem): int
  {
    if line.variation.Some? && line.variation.value.price != 0
    then line.variation.value.price
    else line.menuItem.price
  }

  function LineTotal(line: CartItem): int { line.totalPrice }

  function LineQuantity(line: CartItem): int { line.quantity }

  predicate HasKey(items: seq<CartItem>, key: LineKey)
  {
    exists i :: 0 <= i < |items| && KeyOf(items[i]) == key
  }

  /** The cart's invariant: at most one line per key. */
  predicate KeysUnique(items: seq<CartItem>)
  {
    UniqueBy(items, KeyOf)
  }

  /** `items.findIndex(...)` for a key: the first matching position, or -1. */
  function IndexOfKey(items: seq<CartItem>, key: LineKey): (r: int)
    ensures -1 <= r < |items|
    ensures r >= 0 ==> KeyOf(items[r]) == key && forall j :: 0 <= j < r ==> KeyOf(items[j]) != key
    ensures r < 0 <==> !HasKey(items, key)
  {
    if |items| == 0 then -1
    else if KeyOf(items[0]) == key then 0
    else
      var k := IndexOfKey(items[1..], key);
      assert forall j :: 1 <= j < |items| ==> items[j] == items[1..][j - 1];
      if k < 0 then -1 else k + 1
  }

  /** The line at quantity `q` with the price the store recomputes on a merge or
      an update: `q` times the unit price. The add-ons' prices are not included. */
  function Repriced(line: CartItem, q: int): CartItem
  {
    line.(quantity := q, totalPrice := q * UnitPrice(line))
  }

  /** `addItem`: merge into the line with the same key, or append. */
  function AddLine(items: seq<CartItem>, candidate: CartItem): seq<CartItem>
  {
    var i := IndexOfKey(items, KeyOf(candidate));
    if i >= 0 then items[i := Repriced(items[i], items[i].quantity + candidate.quantity)]
    else items + [candidate]
  }

  /** The test `removeItem` filters by: the line's key differs from `key`. */
  function OtherKey(key: LineKey): CartItem -> bool
  {
    (line: CartItem) => KeyOf(line) != key
  }

  /** `removeItem`: keep exactly the lines whose key differs. */
  function RemoveKey(items: seq<CartItem>, key: LineKey): seq<CartItem>
  {
    Filter(items, OtherKey(key))
  }

  /** `updateQuantity`: unknown key, no change; `q <= 0`, splice the line out;
      otherwise set the quantity and reprice the line. */
  function SetQuantity(items: seq<CartItem>, key: LineKey, q: int): seq<CartItem>
  {
    var i := IndexOfKey(items, key);
    if i < 0 then items
    else if q <= 0 then items[..i] + items[i+1..]
    else items[i := Repriced(items[i], q)]
  }

  /** Repeated `addItem` calls, in order. */
  function AddAll(items: seq<CartItem>, candidates: seq<CartItem>): seq<CartItem>
    decreases |candidates|
  {
    if candidates == [] then items
    else AddLine(AddAll(items, candidates[..|candidates| - 1]), candidates[|candidates| - 1])
  }

  // ---------------------------------------------------------------------------
  // addItem

  /** Adding a candidate whose key is first found at `i` keeps the line count,
      adds the candidate's quantity to line `i`, reprices it from the unit price
      alone, keeps that line's item, variation, add-ons and note, and leaves
      every other line as it was. */
  lemma AddMergesExisting(items: seq<CartItem>, candidate: CartItem, i: int)
    requires 0 <= i < |items| && KeyOf(items[i]) == KeyOf(candidate)
    requires forall j :: 0 <= j < i ==> KeyOf(items[j]) != KeyOf(candidate)
    ensures |AddLine(items, candidate)| == |items|
    ensures AddLine(items, candidate)[i].quantity == items[i].quantity + candidate.quantity
    ensures AddLine(items, candidate)[i].totalPrice == (items[i].quantity + candidate.quantity) * UnitPrice(items[i])
    ensures AddLine(items, candidate)[i] == items[i].(quantity := items[i].quantity + candidate.quantity,
                                                      totalPrice := AddLine(items, candidate)[i].totalPrice)
    ensures forall j :: 0 <= j < |items| && j != i ==> AddLine(items, candidate)[j] == items[j]
  {
    var k := IndexOfKey(items, KeyOf(candidate));
    assert k == i;
  }

  /** Adding a candidate with a new key appends it unchanged. */
  lemma AddAppendsNew(items: seq<CartItem>, candidate: CartItem)
    requires !HasKey(items, KeyOf(candidate))
    ensures AddLine(items, candidate) == items + [candidate]
  {
  }

  /** `addItem` keeps at most one line per key. */
  lemma AddKeepsKeysUnique(items: seq<CartItem>, candidate: CartItem)
    requires KeysUnique(items)
    ensures KeysUnique(AddLine(items, candidate))
  {
    var i := IndexOfKey(items, KeyOf(candidate));
    var r := AddLine(items, candidate);
    if i >= 0 {
      assert forall j :: 0 <= j < |r| ==> KeyOf(r[j]) == KeyOf(items[j]);
    } else {
      assert forall j :: 0 <= j < |items| ==> KeyOf(r[j]) == KeyOf(items[j]) != KeyOf(candidate);
    }
  }

  /** The item count grows by exactly the candidate's quantity, whether the
      candidate was merged or appended. */
  lemma AddItemCount(items: seq<CartItem>, candidate: CartItem)
    ensures SumOf(AddLine(items, candidate), LineQuantity) == SumOf(items, LineQuantity) + candidate.quantity
  {
    var i := IndexOfKey(items, KeyOf(candidate));
    if i >= 0 {
      SumOfUpdate(items, i, Repriced(items[i], items[i].quantity + candidate.quantity), LineQuantity);
    } else {
      SumOfAppend(items, [candidate], LineQuantity);
    }
  }

  /** The total grows by the candidate's own price when it is appended, and by
      the difference between the repriced and the old line price on a merge. */
  lemma AddTotal(items: seq<CartItem>, candidate: CartItem)
    ensures var i := IndexOfKey(items, KeyOf(candidate));
            SumOf(AddLine(items, candidate), LineTotal) ==
              if i >= 0
              then SumOf(items, LineTotal) - items[i].totalPrice
                   + (items[i].quantity + candidate.quantity) * UnitPrice(items[i])
              else SumOf(items, LineTotal) + candidate.totalPrice
  {
    var i := IndexOfKey(items, KeyOf(candidate));
    if i >= 0 {
      SumOfUpdate(items, i, Repriced(items[i], items[i].quantity + candidate.quantity), LineTotal);
    } else {
      SumOfAppend(items, [candidate], LineTotal);
    }
  }

  /** Adding candidates that all share one key to an empty cart leaves a single
      line whose quantity is the sum of the added quantities. The line keeps the
      first candidate's item and variation; from the second add on, its price is
      quantity times unit price, without add-ons. */
  lemma {:induction false} RepeatedAddsMerge(candidates: seq<CartItem>, key: LineKey)
    requires |candidates| > 0
    requires forall k :: 0 <= k < |candidates| ==> KeyOf(candidates[k]) == key
    ensures |AddAll([], candidates)| == 1
    ensures KeyOf(AddAll([], candidates)[0]) == key
    ensures AddAll([], candidates)[0].quantity == SumOf(candidates, LineQuantity)
    ensures AddAll([], candidates)[0].menuItem == candidates[0].menuItem
    ensures AddAll([], candidates)[0].variation == candidates[0].variation
    ensures |candidates| >= 2 ==>
      AddAll([], candidates)[0].totalPrice == AddAll([], candidates)[0].quantity * UnitPrice(candidates[0])
    decreases |candidates|
  {
    var n := |candidates|;
    var last := candidates[n - 1];
    var init := candidates[..n - 1];
    assert candidates == init + [last];
    if n == 1 {
      assert AddAll([], init) == [];
      assert SumOf(candidates, LineQuantity) == last.quantity;
    } else {
      assert init[0] == candidates[0];
      RepeatedAddsMerge(init, key);
      var prev := AddAll([], init);
      assert IndexOfKey(prev, KeyOf(last)) == 0;
      SumOfAppend(init, [last], LineQuantity);
    }
  }

  // ---------------------------------------------------------------------------
  // removeItem

  /** A line survives removal iff it was in the cart and its key differs. */
  lemma RemoveKeyMembers(items: seq<CartItem>, key: LineKey)
    ensures forall x :: x in RemoveKey(items, key) <==> x in items && KeyOf(x) != key
  {
    FilterMembers(items, OtherKey(key));
  }

  /** Removal keeps the surviving lines in their order: it distributes over
      concatenation. */
  lemma RemoveKeyAppend(a: seq<CartItem>, b: seq<CartItem>, key: LineKey)
    ensures RemoveKey(a + b, key) == RemoveKey(a, key) + RemoveKey(b, key)
  {
    FilterAppend(a, b, OtherKey(key));
  }

  /** Removing an absent key leaves the cart unchanged. */
  lemma RemoveAbsentUnchanged(items: seq<CartItem>, key: LineKey)
    requires !HasKey(items, key)
    ensures RemoveKey(items, key) == items
  {
    FilterKeepsAll(items, OtherKey(key));
  }

  /** In a cart with unique keys, removing the key of line `i` drops exactly
      that line. */
  lemma {:induction false} RemoveUniqueDropsOne(items: seq<CartItem>, i: int)
    requires KeysUnique(items) && 0 <= i < |items|
    ensures RemoveKey(items, KeyOf(items[i])) == items[..i] + items[i+1..]
  {
    var key := KeyOf(items[i]);
    var pre, post := items[..i], items[i+1..];
    assert items == pre + ([items[i]] + post);
    RemoveKeyAppend(pre, [items[i]] + post, key);
    RemoveKeyAppend([items[i]], post, key);
    FilterDropsAll([items[i]], OtherKey(key));
    assert !HasKey(pre, key) by {
      forall j | 0 <= j < |pre| ensures KeyOf(pre[j]) != key {
        assert pre[j] == items[j];
      }
    }
    RemoveAbsentUnchanged(pre, key);
    assert !HasKey(post, key) by {
      forall j | 0 <= j < |post| ensures KeyOf(post[j]) != key {
        assert post[j] == items[i + 1 + j];
      }
    }
    RemoveAbsentUnchanged(post, key);
  }

  /** `removeItem` keeps at most one line per key. */
  lemma RemoveKeepsKeysUnique(items: seq<CartItem>, key: LineKey)
    requires KeysUnique(items)
    ensures KeysUnique(RemoveKey(items, key))
  {
    FilterKeepsUnique(items, OtherKey(key), KeyOf);
  }

  // ---------------------------------------------------------------------------
  // updateQuantity

  /** Updating an unknown key leaves the cart unchanged. */
  lemma SetQuantityUnknownKey(items: seq<CartItem>, key: LineKey, q: int)
    requires !HasKey(items, key)
    ensures SetQuantity(items, key, q) == items
  {
  }

  /** In a cart with unique keys, a quantity of zero or less removes the line,
      exactly as `removeItem` does. */
  lemma SetQuantityNonPositiveRemoves(items: seq<CartItem>, key: LineKey, q: int)
    requires KeysUnique(items) && q <= 0
    ensures SetQuantity(items, key, q) == RemoveKey(items, key)
  {
    var i := IndexOfKey(items, key);
    if i < 0 {
      RemoveAbsentUnchanged(items, key);
    } else {
      RemoveUniqueDropsOne(items, i);
    }
  }

  /** A positive quantity replaces the line's quantity, reprices it from the
      unit price alone, and leaves the other lines and the line count as they were. */
  lemma SetQuantityPositive(items: seq<CartItem>, i: int, q: int)
    requires KeysUnique(items) && 0 <= i < |items| && q > 0
    ensures |SetQuantity(items, KeyOf(items[i]), q)| == |items|
    ensures SetQuantity(items, KeyOf(items[i]), q)[i] == items[i].(quantity := q, totalPrice := q * UnitPrice(items[i]))
    ensures forall j :: 0 <= j < |items| && j != i ==> SetQuantity(items, KeyOf(items[i]), q)[j] == items[j]
    ensures SumOf(SetQuantity(items, KeyOf(items[i]), q), LineQuantity) == SumOf(items, LineQuantity) - items[i].quantity + q
  {
    var k := IndexOfKey(items, KeyOf(items[i]));
    assert k == i;
    SumOfUpdate(items, i, Repriced(items[i], q), LineQuantity);
  }

  /** `updateQuantity` keeps at most one line per key. */
  lemma SetQuantityKeepsKeysUnique(items: seq<CartItem>, key: LineKey, q: int)
    requires KeysUnique(items)
    ensures KeysUnique(SetQuantity(items, key, q))
  {
    var i := IndexOfKey(items, key);
    if i >= 0 {
      if q <= 0 {
        SetQuantityNonPositiveRemoves(items, key, q);
        RemoveKeepsKeysUnique(items, key);
      } else {
        var r := SetQuantity(items, key, q);
        assert forall j :: 0 <= j < |r| ==> KeyOf(r[j]) == KeyOf(items[j]);
      }
    }
  }

  // ---------------------------------------------------------------------------
  // getTotal / getItemCount

  /** The cart total does not depend on the order of the lines. */
  lemma TotalOrderIndependent(a: seq<CartItem>, b: seq<CartItem>)
    requires multiset(a) == multiset(b)
    ensures SumOf(a, LineTotal) == SumOf(b, LineTotal)
    ensures SumOf(a, LineQuantity) == SumOf(b, LineQuantity)
  {
    SumOfPermutation(a, b, LineTotal);
    SumOfPermutation(a, b, LineQuantity);
  }

  /** The cart store. Persistence to browser storage is not modelled: `items`
      is the state the store holds. */
  class Cart {
    var items: seq<CartItem>

    constructor ()
      ensures items == []
    {
      items := [];
    }

    method AddItem(candidate: CartItem)
      modifies this
      ensures items == AddLine(old(items), candidate)
      ensures KeysUnique(old(items)) ==> KeysUnique(items)
    {
      var i := IndexOfKey(items, KeyOf(candidate));
      if i >= 0 {
        var line := items[i];
        var q := line.quantity + candidate.quantity;
        items := items[i := line.(quantity := q, totalPrice := q * UnitPrice(line))];
      } else {
        items := items + [candidate];
      }
      if KeysUnique(old(items)) {
        AddKeepsKeysUnique(old(items), candidate);
      }
    }

    method RemoveItem(menuItemId: string, variationId: Option<string>)
      modifies this
      ensures items == RemoveKey(old(items), LineKey(menuItemId, variationId))
      ensures KeysUnique(old(items)) ==> KeysUnique(items)
    {
      items := RemoveKey(items, LineKey(menuItemId, variationId));
      if KeysUnique(old(items)) {
        RemoveKeepsKeysUnique(old(items), LineKey(menuItemId, variationId));
      }
    }

    method UpdateQuantity(menuItemId: string, quantity: int, variationId: Option<string>)
      modifies this
      ensures items == SetQuantity(old(items), LineKey(menuItemId, variationId), quantity)
      ensures KeysUnique(old(items)) ==> KeysUnique(items)
    {
      var key := LineKey(menuItemId, variationId);
      var i := IndexOfKey(items, key);
      if i >= 0 {
        if quantity <= 0 {
          items := items[..i] + items[i+1..];
        } else {
          var line := items[i];
          items := items[i := line.(quantity := quantity, totalPrice := quantity * UnitPrice(line))];
        }
      }
      if KeysUnique(old(items)) {
        SetQuantityKeepsKeysUnique(old(items), key, quantity);
      }
    }

    method ClearCart()
      modifies this
      ensures items == []
      ensures SumOf(items, LineTotal) == 0 && SumOf(items, LineQuantity) == 0
    {
      items := [];
    }

    /** Sum of the lines' stored prices; 0 for an empty cart. */
    function GetTotal(): (total: int)
      reads this
      ensures items == [] ==> total == 0
      ensures (forall k :: 0 <= k < |items| ==> items[k].totalPrice >= 0) ==> total >= 0
    {
      SumOfNonNegative(items, LineTotal);
      SumOf(items, LineTotal)
    }

    /** Sum of the quantities (not the number of lines); 0 for an empty cart. */
    function GetItemCount(): (count: int)
      reads this
      ensures items == [] ==> count == 0
      ensures (forall k :: 0 <= k < |items| ==> items[k].quantity >= 1) ==> count >= |items|
    {
      SumOfAtLeastLength(items);
      SumOf(items, LineQuantity)
    }
  }

  lemma {:induction false} SumOfNonNegative(items: seq<CartItem>, f: CartItem -> int)
    ensures (forall k :: 0 <= k < |items| ==> f(items[k]) >= 0) ==> SumOf(items, f) >= 0
  {
    if items != [] {
      SumOfNonNegative(items[1..], f);
      if forall k :: 0 <= k < |items| ==> f(items[k]) >= 0 {
        assert forall k :: 0 <= k < |items| - 1 ==> items[1..][k] == items[k + 1];
      }
    }
  }

  lemma {:induction false} SumOfAtLeastLength(items: seq<CartItem>)
    ensures (forall k :: 0 <= k < |items| ==> items[k].quantity >= 1) ==> SumOf(items, LineQuantity) >= |items|
  {
    if items != [] {
      SumOfAtLeastLength(items[1..]);
      if forall k :: 0 <= k < |items| ==> items[k].quantity >= 1 {
        assert forall k :: 0 <= k < |items| - 1 ==> items[1..][k] == items[k + 1];
      }
    }
  }
}
