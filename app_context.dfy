/**
 * The application store: the fetched menu, the cart, the orders, the reservations and the
 * signed-in user. Each list update is a pure function over the old list; the `AppStore`
 * class holds the state and replaces a list with the function's result, as the provider's
 * `setCart`/`setOrders`/`setReservations` calls do.
 */
module AppContext {
  import opened Wrappers
  import opened Text
  import opened MenuItems
  import Seqs

  // ---------------------------------------------------------------------------
  // Entities
  // ---------------------------------------------------------------------------

  /** A cart line: the menu item as it was when first added, and how many of it. */
  datatype CartItem = CartItem(item: MenuItem, quantity: int)

  datatype OrderStatus = Ordered | Preparing | Ready | OutForDelivery | Completed

  datatype DeliveryType = Delivery | Collection

  datatype Order = Order(
    id: string,
    items: seq<CartItem>,
    total: real,
    status: OrderStatus,
    customerName: string,
    customerPhone: string,
    deliveryAddress: Option<string>,
    deliveryType: DeliveryType,
    createdAt: string,
    estimatedTime: string)

  /** What a caller of `addOrder` supplies: an order without its id and creation time. */
  datatype OrderDraft = OrderDraft(
    items: seq<CartItem>,
    total: real,
    status: OrderStatus,
    customerName: string,
    customerPhone: string,
    deliveryAddress: Option<string>,
    deliveryType: DeliveryType,
    estimatedTime: string)
  {
    /** The stored order: the caller's fields plus the generated id and timestamp. */
    function WithId(id: string, createdAt: string): Order {
      Order(id, items, total, status, customerName, customerPhone, deliveryAddress,
            deliveryType, createdAt, estimatedTime)
    }
  }

  datatype ReservationStatus = Pending | Confirmed | Cancelled

  datatype Reservation = Reservation(
    id: string,
    customerName: string,
    customerEmail: string,
    customerPhone: string,
    date: string,
    time: string,
    partySize: int,
    status: ReservationStatus)

  /** What a caller of `addReservation` supplies: a reservation without id and status. */
  datatype ReservationDraft = ReservationDraft(
    customerName: string,
    customerEmail: string,
    customerPhone: string,
    date: string,
    time: string,
    partySize: int)

  datatype Role = Customer | Staff | Admin

  datatype User = User(id: string, name: string, email: string, role: Role, phone: Option<string>)

  /** The `user` object of a successful login or registration response, and its token. */
  datatype AuthUser = AuthUser(id: int, name: string, email: string, role: Role, phone: Option<string>)
  datatype AuthData = AuthData(user: AuthUser, token: string)

  // ---------------------------------------------------------------------------
  // Cart
  // ---------------------------------------------------------------------------

  predicate InCart(cart: seq<CartItem>, id: string) {
    exists i :: 0 <= i < |cart| && cart[i].item.id == id
  }

  /** The invariant the cart operations keep: one line per item id, every quantity at least 1. */
  predicate ValidCart(cart: seq<CartItem>) {
    && (forall i, j :: 0 <= i < j < |cart| ==> cart[i].item.id != cart[j].item.id)
    && (forall i :: 0 <= i < |cart| ==> cart[i].quantity >= 1)
  }

  /** How many of the item with this id the cart holds, over all its lines. */
  function QuantityOf(cart: seq<CartItem>, id: string): int
    decreases |cart|
  {
    if |cart| == 0 then 0
    else (if cart[0].item.id == id then cart[0].quantity else 0) + QuantityOf(cart[1..], id)
  }

  /** `addToCart`: one more of an item already in the cart, otherwise a new line of 1 at the end. */
  function CartAdd(cart: seq<CartItem>, item: MenuItem): (r: seq<CartItem>)
    ensures InCart(cart, item.id) ==> |r| == |cart|
    ensures !InCart(cart, item.id) ==> |r| == |cart| + 1
    ensures InCart(r, item.id)
  {
    if InCart(cart, item.id) then
      var r := Seqs.Map(cart, (c: CartItem) => if c.item.id == item.id then c.(quantity := c.quantity + 1) else c);
      var k :| 0 <= k < |cart| && cart[k].item.id == item.id;
      assert r[k].item.id == item.id;
      r
    else
      var r := cart + [CartItem(item, 1)];
      assert r[|cart|].item.id == item.id;
      r
  }

  /** `removeFromCart`: keeps the lines whose id differs. */
  function CartRemove(cart: seq<CartItem>, id: string): (r: seq<CartItem>)
    ensures !InCart(r, id)
    ensures |r| <= |cart|
  {
    Seqs.Filter(cart, (c: CartItem) => c.item.id != id)
  }

  /** `updateCartItemQuantity`: a quantity of 0 or less removes the line, any other sets it. */
  function CartSetQuantity(cart: seq<CartItem>, id: string, qty: int): (r: seq<CartItem>)
    ensures qty <= 0 ==> !InCart(r, id)
    ensures qty > 0 ==> |r| == |cart| && forall i :: 0 <= i < |r| ==> r[i].item == cart[i].item
  {
    if qty <= 0 then CartRemove(cart, id)
    else Seqs.Map(cart, (c: CartItem) => if c.item.id == id then c.(quantity := qty) else c)
  }

  /** In a valid cart the line with the id is the only one counted. */
  lemma {:induction false} QuantityOfLine(cart: seq<CartItem>, k: int)
    requires ValidCart(cart) && 0 <= k < |cart|
    ensures QuantityOf(cart, cart[k].item.id) == cart[k].quantity
    decreases |cart|
  {
    if k == 0 {
      QuantityOfAbsent(cart[1..], cart[0].item.id);
    } else {
      QuantityOfLine(cart[1..], k - 1);
    }
  }

  lemma {:induction false} QuantityOfAbsent(cart: seq<CartItem>, id: string)
    requires !InCart(cart, id)
    ensures QuantityOf(cart, id) == 0
    decreases |cart|
  {
    if |cart| > 0 {
      assert forall i :: 0 <= i < |cart| - 1 ==> cart[1..][i] == cart[i + 1];
      QuantityOfAbsent(cart[1..], id);
    }
  }

  /** Adding an item already in a valid cart raises that one line by 1; nothing else moves. */
  lemma AddToCartExisting(cart: seq<CartItem>, item: MenuItem, k: int)
    requires ValidCart(cart) && 0 <= k < |cart| && cart[k].item.id == item.id
    ensures CartAdd(cart, item) == cart[k := cart[k].(quantity := cart[k].quantity + 1)]
  {
  }

  /** Adding an item not in the cart appends one line of quantity 1 after the unchanged prefix. */
  lemma AddToCartNew(cart: seq<CartItem>, item: MenuItem)
    requires !InCart(cart, item.id)
    ensures CartAdd(cart, item) == cart + [CartItem(item, 1)]
  {
  }

  lemma AddToCartValid(cart: seq<CartItem>, item: MenuItem)
    requires ValidCart(cart)
    ensures ValidCart(CartAdd(cart, item))
  {
    if InCart(cart, item.id) {
      var k :| 0 <= k < |cart| && cart[k].item.id == item.id;
      AddToCartExisting(cart, item, k);
    }
  }

  /** Adding raises the added item's count by exactly one and leaves every other id's count alone. */
  lemma AddToCartQuantity(cart: seq<CartItem>, item: MenuItem, id: string)
    requires ValidCart(cart)
    ensures QuantityOf(CartAdd(cart, item), id) == QuantityOf(cart, id) + (if id == item.id then 1 else 0)
  {
    var r := CartAdd(cart, item);
    AddToCartValid(cart, item);
    if InCart(cart, item.id) {
      var k :| 0 <= k < |cart| && cart[k].item.id == item.id;
      AddToCartExisting(cart, item, k);
      if id == item.id {
        QuantityOfLine(cart, k);
        QuantityOfLine(r, k);
      } else {
        QuantityOfSame(cart, r, id);
      }
    } else {
      AddToCartNew(cart, item);
      QuantityOfAppend(cart, CartItem(item, 1), id);
    }
  }

  /** Two carts that agree on the lines with this id count it the same. */
  lemma {:induction false} QuantityOfSame(a: seq<CartItem>, b: seq<CartItem>, id: string)
    requires |a| == |b|
    requires forall i :: 0 <= i < |a| ==> (a[i].item.id == id <==> b[i].item.id == id)
    requires forall i :: 0 <= i < |a| && a[i].item.id == id ==> a[i].quantity == b[i].quantity
    ensures QuantityOf(a, id) == QuantityOf(b, id)
    decreases |a|
  {
    if |a| > 0 {
      QuantityOfSame(a[1..], b[1..], id);
    }
  }

  lemma {:induction false} QuantityOfAppend(cart: seq<CartItem>, c: CartItem, id: string)
    ensures QuantityOf(cart + [c], id) == QuantityOf(cart, id) + (if c.item.id == id then c.quantity else 0)
    decreases |cart|
  {
    if |cart| == 0 {
      assert cart + [c] == [c];
      assert [c][1..] == [];
    } else {
      assert (cart + [c])[1..] == cart[1..] + [c];
      QuantityOfAppend(cart[1..], c, id);
    }
  }

  /** Adding an item `n` times raises its count by `n` and leaves the cart valid. */
  lemma {:induction false} AddToCartRepeated(cart: seq<CartItem>, item: MenuItem, n: nat)
    requires ValidCart(cart)
    ensures ValidCart(AddRepeated(cart, item, n))
    ensures QuantityOf(AddRepeated(cart, item, n), item.id) == QuantityOf(cart, item.id) + n
    decreases n
  {
    if n > 0 {
      AddToCartRepeated(cart, item, n - 1);
      AddRepeatedStep(cart, item, n);
    }
  }

  /** The `n`-th addition keeps what the first `n - 1` established, one higher. */
  lemma AddRepeatedStep(cart: seq<CartItem>, item: MenuItem, n: nat)
    requires n > 0
    requires ValidCart(AddRepeated(cart, item, n - 1))
    requires QuantityOf(AddRepeated(cart, item, n - 1), item.id) == QuantityOf(cart, item.id) + n - 1
    ensures ValidCart(AddRepeated(cart, item, n))
    ensures QuantityOf(AddRepeated(cart, item, n), item.id) == QuantityOf(cart, item.id) + n
  {
    AddToCartStep(AddRepeated(cart, item, n - 1), AddRepeated(cart, item, n), item,
                  QuantityOf(cart, item.id) + n - 1);
  }

  /** One `addToCart` keeps the cart valid and raises the item's count by one. */
  lemma AddToCartStep(prev: seq<CartItem>, next: seq<CartItem>, item: MenuItem, q: int)
    requires ValidCart(prev) && QuantityOf(prev, item.id) == q
    requires next == CartAdd(prev, item)
    ensures ValidCart(next) && QuantityOf(next, item.id) == q + 1
  {
    AddToCartValid(prev, item);
    AddToCartQuantity(prev, item, item.id);
  }

  function AddRepeated(cart: seq<CartItem>, item: MenuItem, n: nat): seq<CartItem>
    decreases n
  {
    if n == 0 then cart else CartAdd(AddRepeated(cart, item, n - 1), item)
  }

  /** Removing an id that is in a valid cart drops exactly that line; the others keep their order. */
  lemma RemoveFromCartExisting(cart: seq<CartItem>, k: int)
    requires ValidCart(cart) && 0 <= k < |cart|
    ensures CartRemove(cart, cart[k].item.id) == cart[..k] + cart[k + 1..]
  {
    Seqs.FilterDropOne(cart, (c: CartItem) => c.item.id != cart[k].item.id, k);
  }

  /** Removing an id that is not in the cart changes nothing. */
  lemma RemoveFromCartAbsent(cart: seq<CartItem>, id: string)
    requires !InCart(cart, id)
    ensures CartRemove(cart, id) == cart
  {
    Seqs.FilterKeepsAll(cart, (c: CartItem) => c.item.id != id);
  }

  /** Dropping one line of a valid cart leaves a valid cart. */
  lemma ValidCartDropLine(cart: seq<CartItem>, k: int)
    requires ValidCart(cart) && 0 <= k < |cart|
    ensures ValidCart(cart[..k] + cart[k + 1..])
  {
    var r := cart[..k] + cart[k + 1..];
    assert forall i :: 0 <= i < |r| ==> r[i] == cart[if i < k then i else i + 1];
    forall i, j | 0 <= i < j < |r| ensures r[i].item.id != r[j].item.id {
      var i', j' := if i < k then i else i + 1, if j < k then j else j + 1;
      assert r[i] == cart[i'] && r[j] == cart[j'];
    }
  }

  lemma RemoveFromCartValid(cart: seq<CartItem>, id: string)
    requires ValidCart(cart)
    ensures ValidCart(CartRemove(cart, id))
  {
    if InCart(cart, id) {
      var k :| 0 <= k < |cart| && cart[k].item.id == id;
      RemoveFromCartExisting(cart, k);
      ValidCartDropLine(cart, k);
    } else {
      RemoveFromCartAbsent(cart, id);
    }
  }

  /** A positive quantity sets exactly the line with the id; a quantity of 0 or less removes it. */
  lemma UpdateCartItemQuantityExisting(cart: seq<CartItem>, k: int, qty: int)
    requires ValidCart(cart) && 0 <= k < |cart|
    ensures qty > 0 ==> CartSetQuantity(cart, cart[k].item.id, qty) == cart[k := cart[k].(quantity := qty)]
    ensures qty <= 0 ==> CartSetQuantity(cart, cart[k].item.id, qty) == cart[..k] + cart[k + 1..]
  {
    if qty <= 0 {
      RemoveFromCartExisting(cart, k);
    }
  }

  /** Any quantity for an id that is not in the cart changes nothing. */
  lemma UpdateCartItemQuantityAbsent(cart: seq<CartItem>, id: string, qty: int)
    requires !InCart(cart, id)
    ensures CartSetQuantity(cart, id, qty) == cart
  {
    if qty <= 0 {
      RemoveFromCartAbsent(cart, id);
    }
  }

  lemma UpdateCartItemQuantityValid(cart: seq<CartItem>, id: string, qty: int)
    requires ValidCart(cart)
    ensures ValidCart(CartSetQuantity(cart, id, qty))
  {
    if qty <= 0 {
      RemoveFromCartValid(cart, id);
    }
  }

  // ---------------------------------------------------------------------------
  // Orders and reservations
  // ---------------------------------------------------------------------------

  /** `updateOrderStatus`: every order with the id takes the new status, whatever it had. */
  function OrdersSetStatus(orders: seq<Order>, id: string, status: OrderStatus): (r: seq<Order>)
    ensures |r| == |orders|
    ensures forall i :: 0 <= i < |r| ==> r[i].(status := orders[i].status) == orders[i]
    ensures forall i :: 0 <= i < |r| ==> r[i].status == if orders[i].id == id then status else orders[i].status
  {
    Seqs.Map(orders, (o: Order) => if o.id == id then o.(status := status) else o)
  }

  /** `updateReservationStatus`: every reservation with the id takes the new status. */
  function ReservationsSetStatus(reservations: seq<Reservation>, id: string, status: ReservationStatus): (r: seq<Reservation>)
    ensures |r| == |reservations|
    ensures forall i :: 0 <= i < |r| ==> r[i].(status := reservations[i].status) == reservations[i]
    ensures forall i :: 0 <= i < |r| ==> r[i].status == if reservations[i].id == id then status else reservations[i].status
  {
    Seqs.Map(reservations, (v: Reservation) => if v.id == id then v.(status := status) else v)
  }

  /** The reservation `addReservation` appends: the caller's fields, the id, and status pending. */
  function NewReservation(draft: ReservationDraft, id: string): (v: Reservation)
    ensures v.status == Pending && v.id == id
  {
    Reservation(id, draft.customerName, draft.customerEmail, draft.customerPhone, draft.date,
                draft.time, draft.partySize, Pending)
  }

  /** Status updates are not checked against any transition rule: the last one wins. */
  lemma {:induction false} UpdateOrderStatusLastWins(orders: seq<Order>, id: string, s1: OrderStatus, s2: OrderStatus)
    ensures OrdersSetStatus(OrdersSetStatus(orders, id, s1), id, s2) == OrdersSetStatus(orders, id, s2)
  {
    var a := OrdersSetStatus(OrdersSetStatus(orders, id, s1), id, s2);
    var b := OrdersSetStatus(orders, id, s2);
    assert forall i :: 0 <= i < |a| ==> a[i] == b[i] by {
      forall i | 0 <= i < |a| ensures a[i] == b[i] {
        assert a[i].(status := orders[i].status) == orders[i];
        assert b[i].(status := orders[i].status) == orders[i];
      }
    }
  }

  lemma {:induction false} UpdateReservationStatusLastWins(reservations: seq<Reservation>, id: string, s1: ReservationStatus, s2: ReservationStatus)
    ensures ReservationsSetStatus(ReservationsSetStatus(reservations, id, s1), id, s2)
         == ReservationsSetStatus(reservations, id, s2)
  {
    var a := ReservationsSetStatus(ReservationsSetStatus(reservations, id, s1), id, s2);
    var b := ReservationsSetStatus(reservations, id, s2);
    assert forall i :: 0 <= i < |a| ==> a[i] == b[i] by {
      forall i | 0 <= i < |a| ensures a[i] == b[i] {
        assert a[i].(status := reservations[i].status) == reservations[i];
        assert b[i].(status := reservations[i].status) == reservations[i];
      }
    }
  }

  /** A status update for an id no order has changes nothing. */
  lemma UpdateOrderStatusAbsent(orders: seq<Order>, id: string, status: OrderStatus)
    requires forall i :: 0 <= i < |orders| ==> orders[i].id != id
    ensures OrdersSetStatus(orders, id, status) == orders
  {
    var r := OrdersSetStatus(orders, id, status);
    assert forall i :: 0 <= i < |r| ==> r[i] == orders[i];
  }

  /**
   * A cancelled reservation can be confirmed again by a direct status update: a new
   * reservation cancelled and then confirmed ends confirmed.
   */
  lemma CancelledThenConfirmed(reservations: seq<Reservation>, draft: ReservationDraft, id: string)
    ensures var added := reservations + [NewReservation(draft, id)];
      var r := ReservationsSetStatus(ReservationsSetStatus(added, id, Cancelled), id, Confirmed);
      r[|reservations|].status == Confirmed
  {
    var added := reservations + [NewReservation(draft, id)];
    UpdateReservationStatusLastWins(added, id, Cancelled, Confirmed);
  }

  // ---------------------------------------------------------------------------
  // Auth
  // ---------------------------------------------------------------------------

  /** The user kept after login or registration: the id stringified, the phone kept unless null. */
  function SessionUser(u: AuthUser): (r: User)
    ensures ParseInt(r.id) == Some(u.id)
    ensures r.phone == u.phone
  {
    IntToStringRoundTrip(u.id);
    User(IntToString(u.id), u.name, u.email, u.role, u.phone)
  }

  // ---------------------------------------------------------------------------
  // The store
  // ---------------------------------------------------------------------------

  /** `!authToken` is false: a token is present and not the empty string. */
  predicate HasToken(token: Option<string>) {
    token.Some? && token.value != ""
  }

  const MenuLoadError: string := "Failed to load menu from database"

  class AppStore {
    var menu: seq<MenuItem>
    var loadingMenu: bool
    var errorMenu: Option<string>
    var cart: seq<CartItem>
    var orders: seq<Order>
    var reservations: seq<Reservation>
    var currentUser: Option<User>
    var authToken: Option<string>

    ghost predicate Valid()
      reads this
    {
      ValidCart(cart)
    }

    /** A fresh store; the token and user are whatever the browser had saved (none if absent or unreadable). */
    constructor (storedToken: Option<string>, storedUser: Option<User>)
      ensures Valid()
      ensures menu == [] && loadingMenu && errorMenu == None
      ensures cart == [] && orders == [] && reservations == []
      ensures authToken == storedToken && currentUser == storedUser
    {
      menu := [];
      loadingMenu := true;
      errorMenu := None;
      cart := [];
      orders := [];
      reservations := [];
      authToken := storedToken;
      currentUser := storedUser;
    }

    /** The end of the menu fetch: the mapped rows on success, the error message on failure. */
    method SettleMenuFetch(rows: Option<seq<ApiMenuItem>>)
      modifies this
      ensures !loadingMenu
      ensures rows.Some? ==> menu == MapRows(rows.value) && errorMenu == old(errorMenu)
      ensures rows.None? ==> menu == old(menu) && errorMenu == Some(MenuLoadError)
      ensures cart == old(cart) && orders == old(orders) && reservations == old(reservations)
      ensures currentUser == old(currentUser) && authToken == old(authToken)
    {
      if rows.Some? {
        menu := MapRows(rows.value);
      } else {
        errorMenu := Some(MenuLoadError);
      }
      loadingMenu := false;
    }

    method AddToCart(item: MenuItem)
      requires Valid()
      modifies this
      ensures Valid()
      ensures cart == CartAdd(old(cart), item)
      ensures QuantityOf(cart, item.id) == QuantityOf(old(cart), item.id) + 1
      ensures menu == old(menu) && loadingMenu == old(loadingMenu) && errorMenu == old(errorMenu)
      ensures orders == old(orders) && reservations == old(reservations)
      ensures currentUser == old(currentUser) && authToken == old(authToken)
    {
      AddToCartValid(cart, item);
      AddToCartQuantity(cart, item, item.id);
      cart := CartAdd(cart, item);
    }

    method RemoveFromCart(id: string)
      requires Valid()
      modifies this
      ensures Valid()
      ensures cart == CartRemove(old(cart), id)
      ensures menu == old(menu) && loadingMenu == old(loadingMenu) && errorMenu == old(errorMenu)
      ensures orders == old(orders) && reservations == old(reservations)
      ensures currentUser == old(currentUser) && authToken == old(authToken)
    {
      RemoveFromCartValid(cart, id);
      cart := CartRemove(cart, id);
    }

    method UpdateCartItemQuantity(id: string, qty: int)
      requires Valid()
      modifies this
      ensures Valid()
      ensures cart == CartSetQuantity(old(cart), id, qty)
      ensures menu == old(menu) && loadingMenu == old(loadingMenu) && errorMenu == old(errorMenu)
      ensures orders == old(orders) && reservations == old(reservations)
      ensures currentUser == old(currentUser) && authToken == old(authToken)
    {
      if qty <= 0 {
        RemoveFromCart(id);
        return;
      }
      UpdateCartItemQuantityValid(cart, id, qty);
      cart := CartSetQuantity(cart, id, qty);
    }

    method ClearCart()
      modifies this
      ensures Valid()
      ensures cart == []
      ensures menu == old(menu) && loadingMenu == old(loadingMenu) && errorMenu == old(errorMenu)
      ensures orders == old(orders) && reservations == old(reservations)
      ensures currentUser == old(currentUser) && authToken == old(authToken)
    {
      cart := [];
    }

    /** `addOrder`; the generated id and the creation time are supplied by the caller. */
    method AddOrder(draft: OrderDraft, id: string, createdAt: string)
      modifies this
      ensures orders == old(orders) + [draft.WithId(id, createdAt)]
      ensures menu == old(menu) && loadingMenu == old(loadingMenu) && errorMenu == old(errorMenu)
      ensures cart == old(cart) && reservations == old(reservations)
      ensures currentUser == old(currentUser) && authToken == old(authToken)
    {
      orders := orders + [draft.WithId(id, createdAt)];
    }

    method UpdateOrderStatus(id: string, status: OrderStatus)
      modifies this
      ensures orders == OrdersSetStatus(old(orders), id, status)
      ensures menu == old(menu) && loadingMenu == old(loadingMenu) && errorMenu == old(errorMenu)
      ensures cart == old(cart) && reservations == old(reservations)
      ensures currentUser == old(currentUser) && authToken == old(authToken)
    {
      orders := OrdersSetStatus(orders, id, status);
    }

    /** `addReservation`; the generated id is supplied by the caller. */
    method AddReservation(draft: ReservationDraft, id: string)
      modifies this
      ensures reservations == old(reservations) + [NewReservation(draft, id)]
      ensures menu == old(menu) && loadingMenu == old(loadingMenu) && errorMenu == old(errorMenu)
      ensures cart == old(cart) && orders == old(orders)
      ensures currentUser == old(currentUser) && authToken == old(authToken)
    {
      reservations := reservations + [NewReservation(draft, id)];
    }

    method UpdateReservationStatus(id: string, status: ReservationStatus)
      modifies this
      ensures reservations == ReservationsSetStatus(old(reservations), id, status)
      ensures menu == old(menu) && loadingMenu == old(loadingMenu) && errorMenu == old(errorMenu)
      ensures cart == old(cart) && orders == old(orders)
      ensures currentUser == old(currentUser) && authToken == old(authToken)
    {
      reservations := ReservationsSetStatus(reservations, id, status);
    }

    /**
     * `login`: the server's answer is the parameter, `None` for a refused or failed request.
     * On success the user and token are set and `true` is returned; otherwise nothing changes.
     */
    method Login(response: Option<AuthData>) returns (ok: bool)
      modifies this
      ensures ok <==> response.Some?
      ensures response.Some? ==> currentUser == Some(SessionUser(response.value.user)) && authToken == Some(response.value.token)
      ensures response.None? ==> currentUser == old(currentUser) && authToken == old(authToken)
      ensures menu == old(menu) && loadingMenu == old(loadingMenu) && errorMenu == old(errorMenu)
      ensures cart == old(cart) && orders == old(orders) && reservations == old(reservations)
    {
      if response.None? {
        return false;
      }
      currentUser := Some(SessionUser(response.value.user));
      authToken := Some(response.value.token);
      return true;
    }

    /** `register`: the same outcome as `login` for the registration response. */
    method Register(response: Option<AuthData>) returns (ok: bool)
      modifies this
      ensures ok <==> response.Some?
      ensures response.Some? ==> currentUser == Some(SessionUser(response.value.user)) && authToken == Some(response.value.token)
      ensures response.None? ==> currentUser == old(currentUser) && authToken == old(authToken)
      ensures menu == old(menu) && loadingMenu == old(loadingMenu) && errorMenu == old(errorMenu)
      ensures cart == old(cart) && orders == old(orders) && reservations == old(reservations)
    {
      ok := Login(response);
    }

    method Logout()
      modifies this
      ensures currentUser == None && authToken == None
      ensures menu == old(menu) && loadingMenu == old(loadingMenu) && errorMenu == old(errorMenu)
      ensures cart == old(cart) && orders == old(orders) && reservations == old(reservations)
    {
      currentUser := None;
      authToken := None;
    }
  }
}
