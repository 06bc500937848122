/** The customer menu page of `MenuPage.tsx`: the search and dietary filters
    over the loaded categories, and what "add" does for an item. */
module MenuPage {
  import opened Types
  import opened Seqs
  import opened CartStore
  import Stores

  /** `toLowerCase` on one character, for the ASCII letters. */
  function LowerChar(c: char): char
  {
    if 'A' <= c <= 'Z' then (c as int + 32) as char else c
  }

  /** `s.toLowerCase()`: same length, each character lowered. */
  function Lower(s: string): (r: string)
    ensures |r| == |s|
    ensures forall k :: 0 <= k < |s| ==> r[k] == LowerChar(s[k])
  {
    if s == [] then [] else [LowerChar(s[0])] + Lower(s[1..])
  }

  /** Lowering twice is lowering once. */
  lemma LowerIdempotent(s: string)
    ensures Lower(Lower(s)) == Lower(s)
  {
  }

  /** `s.includes(sub)` */
  predicate Contains(s: string, sub: string)
  {
    exists k :: 0 <= k <= |s| && sub <= s[k..]
  }

  /** Every string includes the empty string. */
  lemma ContainsEmpty(s: string)
    ensures Contains(s, "")
  {
    assert "" <= s[0..];
  }

  /** The search test: an empty query matches everything; otherwise the
      lower-cased name or description must include the lower-cased query. */
  predicate MatchesSearch(item: MenuItem, query: string)
  {
    query == ""
    || Contains(Lower(item.name), Lower(query))
    || (item.description.Some? && Contains(Lower(item.description.value), Lower(query)))
  }

  /** The dietary test: "ALL" admits every item, the other choices admit only
      their own type. */
  predicate MatchesDietary(item: MenuItem, filter: Stores.DietaryFilter)
  {
    match filter
    case FilterAll => true
    case FilterVeg => item.dietary == Veg
    case FilterNonVeg => item.dietary == NonVeg
  }

  /** The search ignores case: a query and its lower-cased form match the same items. */
  lemma SearchIgnoresCase(item: MenuItem, query: string)
    ensures MatchesSearch(item, query) <==> MatchesSearch(item, Lower(query))
  {
    LowerIdempotent(query);
  }

  /** The filter offers no vegan choice, so vegan items show only under "ALL". */
  lemma VeganOnlyUnderAll(item: MenuItem, filter: Stores.DietaryFilter)
    requires item.dietary == Vegan
    ensures MatchesDietary(item, filter) <==> filter == Stores.FilterAll
  {
  }

  /** The item test the page filters by */
  function Keeper(query: string, filter: Stores.DietaryFilter): MenuItem -> bool
  {
    (item: MenuItem) => MatchesSearch(item, query) && MatchesDietary(item, filter)
  }

  /** `menuItems?.filter(...) || []` */
  function FilterItems(items: Option<seq<MenuItem>>, query: string, filter: Stores.DietaryFilter): seq<MenuItem>
  {
    Filter(items.GetOr([]), Keeper(query, filter))
  }

  /** An item is shown iff it is in the category and passes both tests. */
  lemma FilterItemsMembers(items: seq<MenuItem>, query: string, filter: Stores.DietaryFilter)
    ensures forall x :: x in FilterItems(Some(items), query, filter) <==>
              x in items && MatchesSearch(x, query) && MatchesDietary(x, filter)
  {
    FilterMembers(items, Keeper(query, filter));
  }

  /** Shown items keep their menu order: filtering a split list is filtering
      each part. */
  lemma FilterItemsKeepsOrder(a: seq<MenuItem>, b: seq<MenuItem>, query: string, filter: Stores.DietaryFilter)
    ensures FilterItems(Some(a + b), query, filter)
            == FilterItems(Some(a), query, filter) + FilterItems(Some(b), query, filter)
  {
    FilterAppend(a, b, Keeper(query, filter));
  }

  /** With no query and "ALL", every item of the category is shown. */
  lemma NoFilterShowsAll(items: seq<MenuItem>)
    ensures FilterItems(Some(items), "", Stores.FilterAll) == items
  {
    FilterKeepsAll(items, Keeper("", Stores.FilterAll));
  }

  /** A category with its item list narrowed */
  function Narrowed(c: Category, query: string, filter: Stores.DietaryFilter): Category
  {
    c.(menuItems := Some(FilterItems(c.menuItems, query, filter)))
  }

  /** `categories.map(...)`: each category narrowed, in order. */
  function NarrowAll(cats: seq<Category>, query: string, filter: Stores.DietaryFilter): (r: seq<Category>)
    ensures |r| == |cats|
    ensures forall k :: 0 <= k < |cats| ==> r[k] == Narrowed(cats[k], query, filter)
  {
    if cats == [] then [] else [Narrowed(cats[0], query, filter)] + NarrowAll(cats[1..], query, filter)
  }

  /** `.filter(category => category.menuItems.length > 0)` */
  predicate HasItems(c: Category)
  {
    c.menuItems.Some? && |c.menuItems.value| > 0
  }

  /** `filteredCategories`: narrowed categories, empty ones dropped. */
  function FilteredCategories(cats: seq<Category>, query: string, filter: Stores.DietaryFilter): (r: seq<Category>)
    ensures forall c :: c in r ==> HasItems(c)
  {
    FilterMembers(NarrowAll(cats, query, filter), HasItems);
    Filter(NarrowAll(cats, query, filter), HasItems)
  }

  /** A narrowed category has items iff one of its items passes both tests,
      and every item it keeps passes both tests. */
  lemma NarrowedHasItemsIff(c: Category, query: string, filter: Stores.DietaryFilter)
    ensures HasItems(Narrowed(c, query, filter)) <==>
            (c.menuItems.Some? &&
             exists x :: x in c.menuItems.value && MatchesSearch(x, query) && MatchesDietary(x, filter))
    ensures forall x :: x in Narrowed(c, query, filter).menuItems.value ==>
              MatchesSearch(x, query) && MatchesDietary(x, filter)
  {
    var items := c.menuItems.GetOr([]);
    FilterItemsMembers(items, query, filter);
    var shown := FilterItems(c.menuItems, query, filter);
    assert shown == FilterItems(Some(items), query, filter);
    if c.menuItems.Some? && exists x :: x in items && MatchesSearch(x, query) && MatchesDietary(x, filter) {
      var x :| x in items && MatchesSearch(x, query) && MatchesDietary(x, filter);
      assert x in shown;
    }
    if HasItems(Narrowed(c, query, filter)) {
      assert shown[0] in shown;
    }
  }

  /** A category is shown (with its narrowed list) iff one of its items passes
      both tests. */
  lemma CategoryShownIff(cats: seq<Category>, query: string, filter: Stores.DietaryFilter, i: int)
    requires 0 <= i < |cats|
    ensures Narrowed(cats[i], query, filter) in FilteredCategories(cats, query, filter) <==>
            (cats[i].menuItems.Some? &&
             exists x :: x in cats[i].menuItems.value && MatchesSearch(x, query) && MatchesDietary(x, filter))
  {
    var all := NarrowAll(cats, query, filter);
    assert all[i] == Narrowed(cats[i], query, filter);
    assert all[i] in all;
    assert FilteredCategories(cats, query, filter) == Filter(all, HasItems);
    FilterMembers(all, HasItems);
    NarrowedHasItemsIff(cats[i], query, filter);
  }

  /** Shown categories keep their relative order. */
  lemma FilteredCategoriesKeepOrder(a: seq<Category>, b: seq<Category>, query: string, filter: Stores.DietaryFilter)
    ensures FilteredCategories(a + b, query, filter)
            == FilteredCategories(a, query, filter) + FilteredCategories(b, query, filter)
  {
    assert NarrowAll(a + b, query, filter) == NarrowAll(a, query, filter) + NarrowAll(b, query, filter);
    FilterAppend(NarrowAll(a, query, filter), NarrowAll(b, query, filter), HasItems);
  }

  /** The line a non-customisable item is added as: quantity 1, no variation,
      no add-ons, no note, priced at the item's price. */
  function DirectCandidate(item: MenuItem): (c: CartItem)
    ensures c.menuItem == item && c.variation == None && c.addons == []
    ensures c.quantity == 1 && c.specialInstructions == None
    ensures c.totalPrice == c.quantity * UnitPrice(c)
  {
    CartItem(item, None, [], 1, None, item.price)
  }

  /** Direct adds never lose money on a merge: after `n` direct adds of one
      item the line holds quantity `n` priced `n` times the item price. */
  lemma {:induction false} DirectAddsStayPriced(item: MenuItem, n: nat)
    requires n >= 1
    ensures var cart := AddAll([], seq(n, _ => DirectCandidate(item)));
            |cart| == 1 && cart[0].quantity == n && cart[0].totalPrice == n * item.price
  {
    var cs := seq(n, _ => DirectCandidate(item));
    RepeatedAddsMerge(cs, KeyOf(DirectCandidate(item)));
    SumOfConstantQuantity(item, n);
  }

  /** Total quantity of `n` direct candidates is `n`. */
  lemma {:induction false} SumOfConstantQuantity(item: MenuItem, n: nat)
    ensures SumOf(seq(n, _ => DirectCandidate(item)), LineQuantity) == n
  {
    if n > 0 {
      var cs := seq(n, _ => DirectCandidate(item));
      assert cs[1..] == seq(n - 1, _ => DirectCandidate(item));
      SumOfConstantQuantity(item, n - 1);
    }
  }

  /** What pressing "add" on an item leads to */
  datatype AddOutcome = OpenOtp | OpenCustomization(item: MenuItem) | AddedToCart

  /** `handleAddToCart`: without a customer session the OTP dialog opens; a
      customisable item opens the customisation dialog; any other item is
      added directly. Only the last case changes the cart. */
  method HandleAddToCart(cart: Cart, customer: Option<Customer>, item: MenuItem) returns (outcome: AddOutcome)
    modifies cart
    ensures customer.None? ==> outcome == OpenOtp && cart.items == old(cart.items)
    ensures customer.Some? && item.isCustomizable ==> outcome == OpenCustomization(item) && cart.items == old(cart.items)
    ensures customer.Some? && !item.isCustomizable ==>
              outcome == AddedToCart && cart.items == AddLine(old(cart.items), DirectCandidate(item))
  {
    if customer.None? {
      return OpenOtp;
    }
    if item.isCustomizable {
      return OpenCustomization(item);
    }
    cart.AddItem(DirectCandidate(item));
    outcome := AddedToCart;
  }
}
