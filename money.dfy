/**
 * Cart money: the subtotal (price times quantity over the lines), the 10% tax, the delivery
 * fee, and the two totals shown by the cart page (no fee) and the checkout page (with fee).
 * Amounts are exact reals; the browser's floating-point rounding is not modelled.
 */
module Money {
  import opened MenuItems
  import opened AppContext

  /** Σ price × quantity over the cart lines, as `cart.reduce(...)` computes it. */
  function Subtotal(cart: seq<CartItem>): real
    decreases |cart|
  {
    if |cart| == 0 then 0.0
    else LineAmount(cart[0]) + Subtotal(cart[1..])
  }

  /** The amount of one cart line: its price times its quantity. */
  function LineAmount(c: CartItem): (a: real)
    ensures c.item.price >= 0.0 && c.quantity >= 0 ==> a >= 0.0
  {
    c.item.price * (c.quantity as real)
  }

  function Tax(subtotal: real): real {
    subtotal * 0.1
  }

  function DeliveryFee(t: DeliveryType): real {
    match t
    case Delivery => 5.0
    case Collection => 0.0
  }

  /** The cart page's total: subtotal plus tax. */
  function CartPageTotal(cart: seq<CartItem>): real {
    Subtotal(cart) + Tax(Subtotal(cart))
  }

  /** The checkout page's total: subtotal plus tax plus the delivery fee. */
  function CheckoutTotal(cart: seq<CartItem>, t: DeliveryType): real {
    Subtotal(cart) + Tax(Subtotal(cart)) + DeliveryFee(t)
  }

  /** With no negative price or quantity, the subtotal is not negative. */
  lemma {:induction false} SubtotalNonNegative(cart: seq<CartItem>)
    requires forall i :: 0 <= i < |cart| ==> cart[i].item.price >= 0.0 && cart[i].quantity >= 0
    ensures Subtotal(cart) >= 0.0
    decreases |cart|
  {
    if |cart| > 0 {
      assert LineAmount(cart[0]) >= 0.0;
      SubtotalNonNegative(cart[1..]);
    }
  }

  /** Checkout charges what the cart page shows, plus 5 for delivery and nothing for collection. */
  lemma CheckoutTotalIsCartTotalPlusFee(cart: seq<CartItem>, t: DeliveryType)
    ensures t == Delivery ==> CheckoutTotal(cart, t) == CartPageTotal(cart) + 5.0
    ensures t == Collection ==> CheckoutTotal(cart, t) == CartPageTotal(cart)
    ensures CartPageTotal(cart) == Subtotal(cart) * 1.1
  {
  }

  /** The subtotal of joined carts is the sum of their subtotals. */
  lemma {:induction false} SubtotalAppend(a: seq<CartItem>, b: seq<CartItem>)
    ensures Subtotal(a + b) == Subtotal(a) + Subtotal(b)
    decreases |a|
  {
    if |a| == 0 {
      assert a + b == b;
    } else {
      assert (a + b)[1..] == a[1..] + b;
      SubtotalAppend(a[1..], b);
    }
  }

  /** The subtotal splits around any one line. */
  lemma SubtotalAround(cart: seq<CartItem>, k: int)
    requires 0 <= k < |cart|
    ensures Subtotal(cart) == Subtotal(cart[..k]) + LineAmount(cart[k]) + Subtotal(cart[k + 1..])
  {
    assert cart == cart[..k] + ([cart[k]] + cart[k + 1..]);
    SubtotalAppend(cart[..k], [cart[k]] + cart[k + 1..]);
    SubtotalAppend([cart[k]], cart[k + 1..]);
    assert [cart[k]][1..] == [];
  }

  /** Replacing one line changes the subtotal by the difference of the two line amounts. */
  lemma SubtotalReplaceLine(cart: seq<CartItem>, k: int, c: CartItem)
    requires 0 <= k < |cart|
    ensures Subtotal(cart[k := c]) == Subtotal(cart) - LineAmount(cart[k]) + LineAmount(c)
  {
    var r := cart[k := c];
    SubtotalAround(cart, k);
    SubtotalAround(r, k);
    assert r[..k] == cart[..k];
    assert r[k + 1..] == cart[k + 1..];
  }

  /** Adding an item already in the cart raises the subtotal by that line's unit price. */
  lemma SubtotalAfterAddExisting(cart: seq<CartItem>, item: MenuItem, k: int)
    requires ValidCart(cart) && 0 <= k < |cart| && cart[k].item.id == item.id
    ensures Subtotal(CartAdd(cart, item)) == Subtotal(cart) + cart[k].item.price
  {
    AddToCartExisting(cart, item, k);
    SubtotalBumpLine(cart, k);
  }

  /** One more unit on one line adds that line's price to the subtotal. */
  lemma SubtotalBumpLine(cart: seq<CartItem>, k: int)
    requires 0 <= k < |cart|
    ensures Subtotal(cart[k := cart[k].(quantity := cart[k].quantity + 1)]) == Subtotal(cart) + cart[k].item.price
  {
    var c := cart[k].(quantity := cart[k].quantity + 1);
    SubtotalReplaceLine(cart, k, c);
    var p, q := cart[k].item.price, cart[k].quantity as real;
    assert LineAmount(c) == p * (q + 1.0) == p * q + p;
  }

  /** Adding an item not in the cart raises the subtotal by the item's price. */
  lemma SubtotalAfterAddNew(cart: seq<CartItem>, item: MenuItem)
    requires !InCart(cart, item.id)
    ensures Subtotal(CartAdd(cart, item)) == Subtotal(cart) + item.price
  {
    AddToCartNew(cart, item);
    SubtotalAppend(cart, [CartItem(item, 1)]);
    assert [CartItem(item, 1)][1..] == [];
  }

  /** Removing a line lowers the subtotal by exactly that line's amount. */
  lemma SubtotalAfterRemove(cart: seq<CartItem>, k: int)
    requires ValidCart(cart) && 0 <= k < |cart|
    ensures Subtotal(CartRemove(cart, cart[k].item.id)) == Subtotal(cart) - LineAmount(cart[k])
  {
    RemoveFromCartExisting(cart, k);
    SubtotalAround(cart, k);
    SubtotalAppend(cart[..k], cart[k + 1..]);
  }

  /** A cart of two at 10 and one at 5: subtotal 25, tax 2.5, 27.5 on the cart page, 32.5 delivered. */
  lemma TotalsExample(a: MenuItem, b: MenuItem)
    requires a.price == 10.0 && b.price == 5.0
    ensures var cart := [CartItem(a, 2), CartItem(b, 1)];
      && Subtotal(cart) == 25.0
      && Tax(Subtotal(cart)) == 2.5
      && CartPageTotal(cart) == 27.5
      && CheckoutTotal(cart, Delivery) == 32.5
      && CheckoutTotal(cart, Collection) == 27.5
  {
    var cart := [CartItem(a, 2), CartItem(b, 1)];
    assert LineAmount(cart[0]) == 20.0 && LineAmount(cart[1]) == 5.0;
    assert cart[1..] == [CartItem(b, 1)];
    assert cart[1..][1..] == [];
    assert Subtotal(cart[1..]) == 5.0;
  }
}
