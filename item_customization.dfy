/** The item customisation dialog: its state (quantity, chosen variation,
    chosen add-ons, note), the price it shows, add-on toggling, the quantity
    stepper, and the cart line it hands to the cart store. */
module ItemCustomization {
  import opened Types
  import opened Seqs
  import CartStore

  datatype ModalState = ModalState(
    quantity: int,
    selectedVariation: Option<Variation>,
    selectedAddons: seq<Addon>,
    specialInstructions: string)

  /** The state the dialog opens with: quantity 1, the item's first variation
      if it has any, no add-ons, an empty note. */
  function InitialState(item: MenuItem): (s: ModalState)
    ensures s.quantity == 1 && s.selectedAddons == [] && s.specialInstructions == ""
    ensures s.selectedVariation.Some? <==> item.variations.Some? && |item.variations.value| > 0
    ensures s.selectedVariation.Some? ==> s.selectedVariation.value == item.variations.value[0]
  {
    ModalState(
      1,
      if item.variations.Some? && |item.variations.value| > 0 then Some(item.variations.value[0]) else None,
      [],
      "")
  }

  function AddonPrice(a: Addon): int { a.price }

  /** `calculatePrice`: (unit price + the chosen add-ons' prices) × quantity,
      where a missing variation or one priced 0 falls back to the item price. */
  function CalculatePrice(item: MenuItem, s: ModalState): int
  {
    var base := if s.selectedVariation.Some? && s.selectedVariation.value.price != 0
                then s.selectedVariation.value.price
                else item.price;
    (base + SumOf(s.selectedAddons, AddonPrice)) * s.quantity
  }

  /** `handleAddToCart`: the line handed to the cart store. */
  function Candidate(item: MenuItem, s: ModalState): (c: CartItem)
    ensures c.menuItem == item && c.variation == s.selectedVariation
    ensures c.addons == s.selectedAddons && c.quantity == s.quantity
    ensures c.specialInstructions == Some(s.specialInstructions)
    ensures c.totalPrice == (CartStore.UnitPrice(c) + SumOf(c.addons, AddonPrice)) * c.quantity
  {
    CartItem(item, s.selectedVariation, s.selectedAddons, s.quantity, Some(s.specialInstructions),
             CalculatePrice(item, s))
  }

  /** The first add of a customised line charges for the add-ons, but the
      store's merge reprices from the unit price alone: adding the same line
      twice to an empty cart yields one line priced twice the first price less
      twice the add-on cost per line. */
  lemma SecondAddDropsAddonCost(item: MenuItem, s: ModalState)
    ensures var c := Candidate(item, s);
            var cart := CartStore.AddLine(CartStore.AddLine([], c), c);
            |cart| == 1 &&
            cart[0].quantity == 2 * s.quantity &&
            cart[0].totalPrice == 2 * c.totalPrice - 2 * s.quantity * SumOf(s.selectedAddons, AddonPrice)
  {
    var c := Candidate(item, s);
    var once := CartStore.AddLine([], c);
    assert once == [c];
    assert CartStore.IndexOfKey(once, CartStore.KeyOf(c)) == 0;
    var u, a, q := CartStore.UnitPrice(c), SumOf(s.selectedAddons, AddonPrice), s.quantity;
    assert (u + a) * q == u * q + a * q;
    assert (q + q) * u == 2 * (u * q);
  }

  /** Whether an add-on with this id is chosen (`selectedAddons.find(...)`). */
  predicate Selected(addons: seq<Addon>, id: string)
  {
    exists i :: 0 <= i < |addons| && addons[i].id == id
  }

  function AddonId(a: Addon): string { a.id }

  /** The test `toggleAddon` filters by: the add-on's id differs from `id`. */
  function OtherId(id: string): Addon -> bool
  {
    (a: Addon) => a.id != id
  }

  /** `toggleAddon`: drop every chosen add-on with this id, or append the add-on. */
  function ToggleAddon(selected: seq<Addon>, addon: Addon): seq<Addon>
  {
    if Selected(selected, addon.id) then Filter(selected, OtherId(addon.id)) else selected + [addon]
  }

  /** Toggling flips whether the add-on's id is chosen and leaves every other
      id's choice as it was. */
  lemma ToggleFlipsOnlyItsId(selected: seq<Addon>, addon: Addon)
    ensures Selected(ToggleAddon(selected, addon), addon.id) <==> !Selected(selected, addon.id)
    ensures forall id :: id != addon.id ==>
              (Selected(ToggleAddon(selected, addon), id) <==> Selected(selected, id))
  {
    var r := ToggleAddon(selected, addon);
    if Selected(selected, addon.id) {
      FilterMembers(selected, OtherId(addon.id));
      assert !Selected(r, addon.id) by {
        forall j | 0 <= j < |r| ensures r[j].id != addon.id {
          assert r[j] in r;
        }
      }
      forall id | id != addon.id
        ensures Selected(r, id) <==> Selected(selected, id)
      {
        if Selected(selected, id) {
          var i :| 0 <= i < |selected| && selected[i].id == id;
          assert selected[i] in selected;
          assert selected[i] in r;
          var j :| 0 <= j < |r| && r[j] == selected[i];
        }
        if Selected(r, id) {
          var j :| 0 <= j < |r| && r[j].id == id;
          assert r[j] in r;
          var i :| 0 <= i < |selected| && selected[i] == r[j];
        }
      }
    } else {
      assert r[|selected|] == addon;
      forall id | id != addon.id
        ensures Selected(r, id) <==> Selected(selected, id)
      {
        if Selected(r, id) {
          var j :| 0 <= j < |r| && r[j].id == id;
          assert j < |selected| && selected[j] == r[j];
        }
        if Selected(selected, id) {
          var i :| 0 <= i < |selected| && selected[i].id == id;
          assert r[i] == selected[i];
        }
      }
    }
  }

  /** Toggling never puts two add-ons with one id into the selection. */
  lemma ToggleKeepsIdsUnique(selected: seq<Addon>, addon: Addon)
    requires UniqueBy(selected, AddonId)
    ensures UniqueBy(ToggleAddon(selected, addon), AddonId)
  {
    if Selected(selected, addon.id) {
      FilterKeepsUnique(selected, OtherId(addon.id), AddonId);
    } else {
      var r := selected + [addon];
      forall i, j | 0 <= i < j < |r| ensures AddonId(r[i]) != AddonId(r[j]) {
        if j == |selected| {
          assert r[i] == selected[i];
        }
      }
    }
  }

  /** Toggling an add-on that was not chosen twice restores the selection. */
  lemma ToggleTwiceRestoresUnselected(selected: seq<Addon>, addon: Addon)
    requires !Selected(selected, addon.id)
    ensures ToggleAddon(ToggleAddon(selected, addon), addon) == selected
  {
    var once := selected + [addon];
    assert once[|selected|].id == addon.id;
    FilterAppend(selected, [addon], OtherId(addon.id));
    FilterKeepsAll(selected, OtherId(addon.id));
    FilterDropsAll([addon], OtherId(addon.id));
  }

  /** With unique ids, dropping the id of the chosen add-on at `i` removes
      exactly that add-on. */
  lemma {:induction false} DropChosen(selected: seq<Addon>, i: int)
    requires UniqueBy(selected, AddonId)
    requires 0 <= i < |selected|
    ensures Filter(selected, OtherId(selected[i].id)) == selected[..i] + selected[i+1..]
  {
    var p := OtherId(selected[i].id);
    var pre, post := selected[..i], selected[i+1..];
    assert selected == pre + ([selected[i]] + post);
    assert Filter(pre, p) == pre by {
      forall j | 0 <= j < |pre| ensures p(pre[j]) {
        assert AddonId(selected[j]) != AddonId(selected[i]);
      }
      FilterKeepsAll(pre, p);
    }
    assert Filter(post, p) == post by {
      forall j | 0 <= j < |post| ensures p(post[j]) {
        assert post[j] == selected[i + 1 + j];
        assert AddonId(selected[i]) != AddonId(selected[i + 1 + j]);
      }
      FilterKeepsAll(post, p);
    }
    assert Filter([selected[i]], p) == [] by {
      FilterDropsAll([selected[i]], p);
    }
    assert Filter([selected[i]] + post, p) == post by {
      FilterAppend([selected[i]], post, p);
    }
    FilterAppend(pre, [selected[i]] + post, p);
  }

  /** Toggling a chosen add-on twice (ids unique) keeps the same choice of ids
      but moves that add-on to the end of the selection, as the value passed in. */
  lemma ToggleTwiceMovesSelectedToEnd(selected: seq<Addon>, addon: Addon, i: int)
    requires UniqueBy(selected, AddonId)
    requires 0 <= i < |selected| && selected[i].id == addon.id
    ensures ToggleAddon(ToggleAddon(selected, addon), addon) == selected[..i] + selected[i+1..] + [addon]
  {
    DropChosen(selected, i);
    var once := selected[..i] + selected[i+1..];
    assert ToggleAddon(selected, addon) == once;
    assert !Selected(once, addon.id) by {
      forall j | 0 <= j < |once| ensures once[j].id != addon.id {
        if j < i { assert once[j] == selected[j]; } else { assert once[j] == selected[j + 1]; }
      }
    }
  }

  /** The minus button: never below 1. */
  function Decrement(quantity: int): (q: int)
    ensures q >= 1
    ensures quantity > 1 ==> q == quantity - 1
    ensures quantity <= 1 ==> q == 1
  {
    if quantity - 1 > 1 then quantity - 1 else 1
  }

  /** The plus button: exactly one more. */
  function Increment(quantity: int): (q: int)
    ensures q - quantity == 1
  {
    quantity + 1
  }
}
