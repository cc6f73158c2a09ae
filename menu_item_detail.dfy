/**
 * The item page: the item is looked up among the fetched rows by its decimal id, a quantity
 * selector never goes below 1, and "Add to Cart" calls the store's add once per unit.
 */
module MenuItemDetail {
  import opened Wrappers
  import opened Text
  import opened MenuItems
  import opened AppContext

  const NotFound: string := "Item not found"
  const LoadFailed: string := "Failed to load item from database."

  /** `rows.find(i => String(i.id) === itemId)`: the first row with that decimal id. */
  function FindRow(rows: seq<ApiMenuItem>, itemId: string): (r: Option<ApiMenuItem>)
    ensures r.Some? ==> IntToString(r.value.id) == itemId
    ensures r.Some? ==> (exists k :: 0 <= k < |rows| && rows[k] == r.value
                           && forall j :: 0 <= j < k ==> IntToString(rows[j].id) != itemId)
    ensures r.None? <==> forall k :: 0 <= k < |rows| ==> IntToString(rows[k].id) != itemId
    decreases |rows|
  {
    if |rows| == 0 then None
    else if IntToString(rows[0].id) == itemId then Some(rows[0])
    else
      var r := FindRow(rows[1..], itemId);
      assert forall k :: 1 <= k < |rows| ==> rows[k] == rows[1..][k - 1];
      if r.Some? then
        var k :| 0 <= k < |rows[1..]| && rows[1..][k] == r.value
          && forall j :: 0 <= j < k ==> IntToString(rows[1..][j].id) != itemId;
        assert rows[k + 1] == r.value;
        r
      else r
  }

  datatype ItemLoad = Loaded(item: MenuItem) | Failed(error: string)

  /**
   * The outcome of the item page's fetch: `None` when the request failed; otherwise the mapped
   * row whose id is `itemId`, or the not-found message.
   */
  function LoadItem(rows: Option<seq<ApiMenuItem>>, itemId: string): (r: ItemLoad)
    ensures rows.None? ==> r == Failed(LoadFailed)
    ensures rows.Some? && FindRow(rows.value, itemId).None? ==> r == Failed(NotFound)
    ensures r.Loaded? ==> r.item.id == itemId && ParseInt(itemId).Some?
  {
    match rows
    case None => Failed(LoadFailed)
    case Some(all) =>
      match FindRow(all, itemId)
      case None => Failed(NotFound)
      case Some(row) =>
        var m := MapApiToMenuItem(row);
        IntToStringRoundTrip(row.id);
        Loaded(m)
  }

  /** When the ids are distinct, the page shows the mapped row with that id. */
  lemma LoadItemFindsRow(rows: seq<ApiMenuItem>, k: int)
    requires 0 <= k < |rows|
    requires forall i, j :: 0 <= i < j < |rows| ==> rows[i].id != rows[j].id
    ensures LoadItem(Some(rows), IntToString(rows[k].id)) == Loaded(MapApiToMenuItem(rows[k]))
  {
    var r := FindRow(rows, IntToString(rows[k].id));
    var m :| 0 <= m < |rows| && rows[m] == r.value
      && forall j :: 0 <= j < m ==> IntToString(rows[j].id) != IntToString(rows[k].id);
    IntToStringInjective(rows[m].id, rows[k].id);
    assert m == k;
  }

  /** The page's quantity selector and its add-to-cart button. */
  class ItemDetail {
    var quantity: int

    ghost predicate Valid()
      reads this
    {
      quantity >= 1
    }

    constructor ()
      ensures Valid() && quantity == 1
    {
      quantity := 1;
    }

    /** `Math.max(1, quantity - 1)`. */
    method Minus()
      requires Valid()
      modifies this
      ensures Valid()
      ensures quantity == if old(quantity) > 1 then old(quantity) - 1 else 1
    {
      quantity := if quantity - 1 > 1 then quantity - 1 else 1;
    }

    method Plus()
      requires Valid()
      modifies this
      ensures Valid()
      ensures quantity == old(quantity) + 1
    {
      quantity := quantity + 1;
    }

    /**
     * "Add to Cart": `addToCart(item)` once per unit of the selected quantity, then back to
     * the menu. The item's count in the cart rises by exactly the quantity.
     */
    method HandleAddToCart(store: AppStore, item: MenuItem) returns (hash: string)
      requires Valid() && store.Valid()
      modifies store
      ensures store.Valid()
      ensures store.cart == AddRepeated(old(store.cart), item, quantity)
      ensures QuantityOf(store.cart, item.id) == QuantityOf(old(store.cart), item.id) + quantity
      ensures store.orders == old(store.orders) && store.reservations == old(store.reservations)
      ensures store.menu == old(store.menu) && store.currentUser == old(store.currentUser)
      ensures store.authToken == old(store.authToken) && store.loadingMenu == old(store.loadingMenu) && store.errorMenu == old(store.errorMenu)
      ensures hash == "/menu"
    {
      for i := 0 to quantity
        invariant store.Valid()
        invariant store.cart == AddRepeated(old(store.cart), item, i)
        invariant QuantityOf(store.cart, item.id) == QuantityOf(old(store.cart), item.id) + i
        invariant store.orders == old(store.orders) && store.reservations == old(store.reservations)
        invariant store.menu == old(store.menu) && store.currentUser == old(store.currentUser)
        invariant store.authToken == old(store.authToken) && store.loadingMenu == old(store.loadingMenu) && store.errorMenu == old(store.errorMenu)
      {
        store.AddToCart(item);
      }
      hash := "/menu";
    }
  }
}
