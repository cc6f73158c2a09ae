/**
 * The menu page's list: a category tab, a search box and three dietary switches narrow the
 * fetched menu; "Add to Cart" forwards the item to the store.
 */
module MenuPage {
  import opened Text
  import opened MenuItems
  import opened AppContext
  import Seqs

  datatype DietFilters = DietFilters(vegetarian: bool, vegan: bool, spicy: bool)

  datatype MenuFilter = MenuFilter(category: string, query: string, diet: DietFilters)

  /** The category tabs offered. */
  const Categories: seq<string> := ["All", "Starters", "Main Course", "Desserts", "Drinks"]

  /** The page's initial state: every category, no search text, no dietary switch on. */
  const Initial: MenuFilter := MenuFilter("All", "", DietFilters(false, false, false))

  predicate MatchesCategory(f: MenuFilter, item: MenuItem) {
    f.category == "All" || item.category == f.category
  }

  predicate MatchesSearch(f: MenuFilter, item: MenuItem) {
    Includes(Lower(item.name), Lower(f.query)) || Includes(Lower(item.description), Lower(f.query))
  }

  predicate MatchesDiet(d: DietFilters, item: MenuItem) {
    (!d.vegetarian || item.isVegetarian) && (!d.vegan || item.isVegan) && (!d.spicy || item.isSpicy)
  }

  predicate Shown(f: MenuFilter, item: MenuItem) {
    MatchesCategory(f, item) && MatchesSearch(f, item) && MatchesDiet(f.diet, item)
  }

  /** `filteredItems`: the shown items, in menu order. */
  function FilteredItems(items: seq<MenuItem>, f: MenuFilter): (r: seq<MenuItem>)
    ensures Seqs.SubsequenceOf(r, items)
    ensures forall i :: 0 <= i < |r| ==> Shown(f, r[i])
    ensures forall i :: 0 <= i < |items| && Shown(f, items[i]) ==> items[i] in r
  {
    Seqs.FilterIsSubsequence(items, (m: MenuItem) => Shown(f, m));
    Seqs.Filter(items, (m: MenuItem) => Shown(f, m))
  }

  /** Every item is shown in the initial state. */
  lemma InitialShowsAll(items: seq<MenuItem>)
    ensures FilteredItems(items, Initial) == items
  {
    forall i | 0 <= i < |items| ensures Shown(Initial, items[i]) {
      assert Lower("") == "";
      assert StartsWith(Lower(items[i].name), "");
    }
    Seqs.FilterKeepsAll(items, (m: MenuItem) => Shown(Initial, m));
  }

  /** Every switch on in `d` is also on in `e`. */
  predicate AtLeastAsStrict(e: DietFilters, d: DietFilters) {
    (d.vegetarian ==> e.vegetarian) && (d.vegan ==> e.vegan) && (d.spicy ==> e.spicy)
  }

  /**
   * Turning dietary switches on never adds an item: the stricter list is the looser list
   * filtered again, so it is a subsequence of it.
   */
  lemma EnablingFilterNarrows(items: seq<MenuItem>, f: MenuFilter, e: DietFilters)
    requires AtLeastAsStrict(e, f.diet)
    ensures FilteredItems(items, f.(diet := e)) == Seqs.Filter(FilteredItems(items, f), (m: MenuItem) => MatchesDiet(e, m))
    ensures Seqs.SubsequenceOf(FilteredItems(items, f.(diet := e)), FilteredItems(items, f))
  {
    var g := f.(diet := e);
    var p := (m: MenuItem) => Shown(f, m);
    var q := (m: MenuItem) => Shown(g, m);
    Seqs.FilterNarrows(items, p, q);
    var fp := Seqs.Filter(items, p);
    assert forall i :: 0 <= i < |fp| ==> (q(fp[i]) <==> MatchesDiet(e, fp[i]));
    FilterSamePredicate(fp, q, (m: MenuItem) => MatchesDiet(e, m));
    Seqs.FilterIsSubsequence(fp, q);
  }

  /** Two predicates that agree on every element filter alike. */
  lemma {:induction false} FilterSamePredicate(s: seq<MenuItem>, p: MenuItem -> bool, q: MenuItem -> bool)
    requires forall i :: 0 <= i < |s| ==> (p(s[i]) <==> q(s[i]))
    ensures Seqs.Filter(s, p) == Seqs.Filter(s, q)
    decreases |s|
  {
    if |s| > 0 {
      FilterSamePredicate(s[1..], p, q);
    }
  }

  /** "Add to Cart" on a card: exactly one `addToCart` call with that item. */
  method HandleAddToCart(store: AppStore, item: MenuItem)
    requires store.Valid()
    modifies store
    ensures store.Valid()
    ensures store.cart == CartAdd(old(store.cart), item)
    ensures QuantityOf(store.cart, item.id) == QuantityOf(old(store.cart), item.id) + 1
    ensures store.orders == old(store.orders) && store.reservations == old(store.reservations)
    ensures store.menu == old(store.menu) && store.currentUser == old(store.currentUser)
    ensures store.authToken == old(store.authToken) && store.loadingMenu == old(store.loadingMenu) && store.errorMenu == old(store.errorMenu)
  {
    store.AddToCart(item);
  }
}
