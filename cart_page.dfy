/**
 * The cart page's line buttons. Each forwards one call to the store: the trash button removes
 * the line, the minus button asks for one less and the plus button for one more. The page's
 * totals are `Money.CartPageTotal`.
 */
module CartPage {
  import opened AppContext

  /** The trash button on line `k`. */
  method Trash(store: AppStore, k: int)
    requires store.Valid() && 0 <= k < |store.cart|
    modifies store
    ensures store.Valid()
    ensures store.cart == old(store.cart[..k] + store.cart[k + 1..])
    ensures store.orders == old(store.orders) && store.reservations == old(store.reservations)
    ensures store.menu == old(store.menu) && store.currentUser == old(store.currentUser)
    ensures store.authToken == old(store.authToken) && store.loadingMenu == old(store.loadingMenu) && store.errorMenu == old(store.errorMenu)
  {
    RemoveFromCartExisting(store.cart, k);
    store.RemoveFromCart(store.cart[k].item.id);
  }

  /** The minus button on line `k`: asks for quantity − 1, which removes a line at 1. */
  method Minus(store: AppStore, k: int)
    requires store.Valid() && 0 <= k < |store.cart|
    modifies store
    ensures store.Valid()
    ensures old(store.cart[k].quantity) == 1 ==> store.cart == old(store.cart[..k] + store.cart[k + 1..])
    ensures old(store.cart[k].quantity) > 1 ==>
      store.cart == old(store.cart[k := store.cart[k].(quantity := store.cart[k].quantity - 1)])
    ensures store.orders == old(store.orders) && store.reservations == old(store.reservations)
    ensures store.menu == old(store.menu) && store.currentUser == old(store.currentUser)
    ensures store.authToken == old(store.authToken) && store.loadingMenu == old(store.loadingMenu) && store.errorMenu == old(store.errorMenu)
  {
    MinusButton(store.cart, k);
    store.UpdateCartItemQuantity(store.cart[k].item.id, store.cart[k].quantity - 1);
  }

  /** The plus button on line `k`: one more of that line only, the same as adding its item again. */
  method Plus(store: AppStore, k: int)
    requires store.Valid() && 0 <= k < |store.cart|
    modifies store
    ensures store.Valid()
    ensures store.cart == old(store.cart[k := store.cart[k].(quantity := store.cart[k].quantity + 1)])
    ensures store.cart == CartAdd(old(store.cart), old(store.cart[k].item))
    ensures store.orders == old(store.orders) && store.reservations == old(store.reservations)
    ensures store.menu == old(store.menu) && store.currentUser == old(store.currentUser)
    ensures store.authToken == old(store.authToken) && store.loadingMenu == old(store.loadingMenu) && store.errorMenu == old(store.errorMenu)
  {
    PlusButton(store.cart, k);
    store.UpdateCartItemQuantity(store.cart[k].item.id, store.cart[k].quantity + 1);
  }

  /** Minus on a line of 1 drops that line; on a larger line it lowers that line only. */
  lemma MinusButton(cart: seq<CartItem>, k: int)
    requires ValidCart(cart) && 0 <= k < |cart|
    ensures cart[k].quantity == 1 ==> CartSetQuantity(cart, cart[k].item.id, cart[k].quantity - 1) == cart[..k] + cart[k + 1..]
    ensures cart[k].quantity > 1 ==>
      CartSetQuantity(cart, cart[k].item.id, cart[k].quantity - 1) == cart[k := cart[k].(quantity := cart[k].quantity - 1)]
  {
    UpdateCartItemQuantityExisting(cart, k, cart[k].quantity - 1);
  }

  /** Plus on a line asks for exactly what adding that line's item once more would give. */
  lemma PlusButton(cart: seq<CartItem>, k: int)
    requires ValidCart(cart) && 0 <= k < |cart|
    ensures CartSetQuantity(cart, cart[k].item.id, cart[k].quantity + 1) == cart[k := cart[k].(quantity := cart[k].quantity + 1)]
    ensures CartSetQuantity(cart, cart[k].item.id, cart[k].quantity + 1) == CartAdd(cart, cart[k].item)
  {
    UpdateCartItemQuantityExisting(cart, k, cart[k].quantity + 1);
    AddToCartExisting(cart, cart[k].item, k);
  }
}
