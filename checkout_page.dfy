/**
 * The checkout page: the form state, the order it places, and what it shows. Placing an order
 * adds it to the store and then empties the cart; with an empty cart and nothing placed the
 * page sends the browser to the cart instead.
 */
module CheckoutPage {
  import opened Wrappers
  import opened AppContext
  import opened Money

  datatype View = RedirectTo(path: string) | Confirmation | Form

  /** What the page renders for a cart of this size and this `orderPlaced` flag. */
  function PageView(cartSize: nat, orderPlaced: bool): (v: View)
    ensures v.RedirectTo? <==> cartSize == 0 && !orderPlaced
    ensures v.RedirectTo? ==> v.path == "/cart"
    ensures v == Confirmation <==> orderPlaced
  {
    if cartSize == 0 && !orderPlaced then RedirectTo("/cart")
    else if orderPlaced then Confirmation
    else Form
  }

  /** The order `handlePlaceOrder` hands to `addOrder`. */
  function Draft(cart: seq<CartItem>, t: DeliveryType, name: string, phone: string, address: string): (d: OrderDraft)
    ensures d.items == cart && d.status == Ordered && d.deliveryType == t
    ensures d.total == CheckoutTotal(cart, t)
    ensures d.deliveryAddress.Some? <==> t == Delivery
    ensures t == Delivery ==> d.deliveryAddress == Some(address) && d.estimatedTime == "45-60 mins"
    ensures t == Collection ==> d.estimatedTime == "20-30 mins"
    ensures d.customerName == name && d.customerPhone == phone
  {
    OrderDraft(
      cart,
      CheckoutTotal(cart, t),
      Ordered,
      name,
      phone,
      if t == Delivery then Some(address) else None,
      t,
      if t == Delivery then "45-60 mins" else "20-30 mins")
  }

  class Checkout {
    var deliveryType: DeliveryType
    var name: string
    var phone: string
    var address: string
    var orderPlaced: bool

    /** Delivery by default; name and phone start from the signed-in user, or empty. */
    constructor (currentUser: Option<User>)
      ensures deliveryType == Delivery && address == "" && !orderPlaced
      ensures currentUser.Some? ==> name == currentUser.value.name && phone == currentUser.value.phone.GetOr("")
      ensures currentUser.None? ==> name == "" && phone == ""
    {
      deliveryType := Delivery;
      name := if currentUser.Some? then currentUser.value.name else "";
      phone := if currentUser.Some? then currentUser.value.phone.GetOr("") else "";
      address := "";
      orderPlaced := false;
    }

    function CurrentView(store: AppStore): View
      reads this, store
    {
      PageView(|store.cart|, orderPlaced)
    }

    /**
     * Submitting the form (shown only for a non-empty cart before an order is placed): appends
     * exactly one order built from the cart and the form, then empties the cart.
     */
    method PlaceOrder(store: AppStore, id: string, createdAt: string)
      requires store.Valid() && CurrentView(store) == Form
      modifies this, store
      ensures store.Valid()
      ensures store.orders == old(store.orders) + [Draft(old(store.cart), deliveryType, name, phone, address).WithId(id, createdAt)]
      ensures store.cart == []
      ensures store.reservations == old(store.reservations) && store.menu == old(store.menu)
      ensures store.currentUser == old(store.currentUser) && store.authToken == old(store.authToken)
      ensures store.loadingMenu == old(store.loadingMenu) && store.errorMenu == old(store.errorMenu)
      ensures orderPlaced && CurrentView(store) == Confirmation
      ensures deliveryType == old(deliveryType) && name == old(name) && phone == old(phone) && address == old(address)
    {
      store.AddOrder(Draft(store.cart, deliveryType, name, phone, address), id, createdAt);
      store.ClearCart();
      orderPlaced := true;
    }
  }

  /** The placed order's total is the checkout total, which exceeds the cart page's by the fee only. */
  lemma PlacedTotal(cart: seq<CartItem>, t: DeliveryType, name: string, phone: string, address: string)
    ensures Draft(cart, t, name, phone, address).total == CartPageTotal(cart) + DeliveryFee(t)
  {
  }
}
