/**
 * The shared page frame: the cart badge count, the navigation links each role sees, which
 * buttons appear, and the logout button.
 */
module Layout {
  import opened Wrappers
  import opened MenuItems
  import opened AppContext
  import Routes

  /** `cart.reduce((sum, item) => sum + item.quantity, 0)`. */
  function CartItemCount(cart: seq<CartItem>): int
    decreases |cart|
  {
    if |cart| == 0 then 0 else cart[0].quantity + CartItemCount(cart[1..])
  }

  /** The count badge on the cart button. */
  predicate ShowBadge(cart: seq<CartItem>) {
    CartItemCount(cart) > 0
  }

  /** A navigation button: its caption and the hash path it sets. */
  datatype NavLink = NavLink(caption: string, path: string)

  /** The middle navigation: by role, with the customer links also shown to visitors. */
  function NavLinks(user: Option<User>): (links: seq<NavLink>)
    ensures user.None? || user.value.role == Customer ==> |links| == 4
    ensures user.Some? && user.value.role == Staff ==> |links| == 2
    ensures user.Some? && user.value.role == Admin ==> |links| == 3
  {
    if user.None? || user.value.role == Customer then
      [NavLink("Home", "/"), NavLink("Menu", "/menu"), NavLink("Reservations", "/reservation"),
       NavLink("About Us", "/about")]
    else if user.value.role == Staff then
      [NavLink("Orders", "/staff/orders"), NavLink("Reservations", "/staff/reservations")]
    else
      [NavLink("Dashboard", "/admin/dashboard"), NavLink("Menu Management", "/admin/menu"),
       NavLink("Users", "/admin/users")]
  }

  /** The cart button: for visitors and customers only. */
  predicate ShowCartButton(user: Option<User>) {
    user.None? || user.value.role == Customer
  }

  /** The orders icon: for signed-in customers only. */
  predicate ShowOrdersIcon(user: Option<User>) {
    user.Some? && user.value.role == Customer
  }

  /** The sign-in button: for visitors; a signed-in user sees the logout button instead. */
  predicate ShowSignIn(user: Option<User>) {
    user.None?
  }

  /** The logout button: signs out through the store, then goes to the home page. */
  method HandleLogout(store: AppStore) returns (hash: string)
    modifies store
    ensures store.currentUser == None && store.authToken == None
    ensures store.cart == old(store.cart) && store.orders == old(store.orders)
    ensures store.reservations == old(store.reservations) && store.menu == old(store.menu)
    ensures store.loadingMenu == old(store.loadingMenu) && store.errorMenu == old(store.errorMenu)
    ensures Routes.RenderPage(hash).page == Routes.Home
  {
    store.Logout();
    hash := "/";
  }

  lemma {:induction false} CartItemCountAppend(a: seq<CartItem>, b: seq<CartItem>)
    ensures CartItemCount(a + b) == CartItemCount(a) + CartItemCount(b)
    decreases |a|
  {
    if |a| == 0 {
      assert a + b == b;
    } else {
      assert (a + b)[1..] == a[1..] + b;
      CartItemCountAppend(a[1..], b);
    }
  }

  /** The count splits around any one line. */
  lemma CartItemCountAround(cart: seq<CartItem>, k: int)
    requires 0 <= k < |cart|
    ensures CartItemCount(cart) == CartItemCount(cart[..k]) + cart[k].quantity + CartItemCount(cart[k + 1..])
  {
    assert cart == cart[..k] + ([cart[k]] + cart[k + 1..]);
    CartItemCountAppend(cart[..k], [cart[k]] + cart[k + 1..]);
    CartItemCountAppend([cart[k]], cart[k + 1..]);
    assert [cart[k]][1..] == [];
  }

  /** Setting one line's quantity to `q` changes the count by the difference. */
  lemma CartItemCountUpdate(cart: seq<CartItem>, k: int, q: int)
    requires 0 <= k < |cart|
    ensures CartItemCount(cart[k := cart[k].(quantity := q)]) == CartItemCount(cart) - cart[k].quantity + q
  {
    var r := cart[k := cart[k].(quantity := q)];
    CartItemCountAround(cart, k);
    CartItemCountAround(r, k);
    assert r[..k] == cart[..k];
    assert r[k + 1..] == cart[k + 1..];
  }

  /**
   * In a cart whose every line holds at least one, the count is at least the number of lines,
   * so the badge shows exactly when the cart has a line.
   */
  lemma {:induction false} CartItemCountValid(cart: seq<CartItem>)
    requires ValidCart(cart)
    ensures CartItemCount(cart) >= |cart|
    ensures ShowBadge(cart) <==> |cart| > 0
    decreases |cart|
  {
    if |cart| > 0 {
      CartItemCountValid(cart[1..]);
    }
  }

  /** Adding an item to the cart raises the badge count by one. */
  lemma CartItemCountAdd(cart: seq<CartItem>, item: MenuItem)
    requires ValidCart(cart)
    ensures CartItemCount(CartAdd(cart, item)) == CartItemCount(cart) + 1
  {
    if InCart(cart, item.id) {
      var k :| 0 <= k < |cart| && cart[k].item.id == item.id;
      AddToCartExisting(cart, item, k);
      CartItemCountUpdate(cart, k, cart[k].quantity + 1);
    } else {
      AddToCartNew(cart, item);
      CartItemCountAppend(cart, [CartItem(item, 1)]);
    }
  }

  /** Removing a line lowers the badge count by that line's quantity. */
  lemma CartItemCountRemove(cart: seq<CartItem>, k: int)
    requires ValidCart(cart) && 0 <= k < |cart|
    ensures CartItemCount(CartRemove(cart, cart[k].item.id)) == CartItemCount(cart) - cart[k].quantity
  {
    RemoveFromCartExisting(cart, k);
    CartItemCountAround(cart, k);
    CartItemCountAppend(cart[..k], cart[k + 1..]);
  }

  /**
   * Every navigation button leads to a page the router knows, inside the layout; each role's
   * buttons stay within its own section.
   */
  lemma NavLinksRoute(user: Option<User>, i: int)
    requires 0 <= i < |NavLinks(user)|
    ensures var r := Routes.RenderPage(NavLinks(user)[i].path);
      !r.page.NotFound? && !r.page.MenuDetail? && r.withLayout
    ensures user.None? || user.value.role == Customer ==>
      Routes.RenderPage(NavLinks(user)[i].path).page in {Routes.Home, Routes.Menu, Routes.Reservation, Routes.About}
    ensures user.Some? && user.value.role == Staff ==>
      Routes.RenderPage(NavLinks(user)[i].path).page in {Routes.StaffOrders, Routes.StaffReservations}
    ensures user.Some? && user.value.role == Admin ==>
      Routes.RenderPage(NavLinks(user)[i].path).page in {Routes.AdminDashboard, Routes.AdminMenu, Routes.AdminUsers}
  {
  }

  /** The cart button and the orders icon: the icon only for customers, and only beside the cart. */
  lemma ButtonsByRole(user: Option<User>)
    ensures ShowOrdersIcon(user) ==> ShowCartButton(user)
    ensures ShowCartButton(user) <==> ShowSignIn(user) || ShowOrdersIcon(user)
    ensures ShowSignIn(user) ==> !ShowOrdersIcon(user)
  {
  }
}
