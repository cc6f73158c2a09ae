/**
 * The staff order table: a search box and a status drop-down narrow the orders, and each row's
 * status select forwards the chosen status to the store.
 */
module StaffOrders {
  import opened Wrappers
  import opened Text
  import opened AppContext
  import OrderTracking
  import Seqs

  /** An order matches the search when its id or its customer's name contains the text, ignoring case. */
  predicate MatchesSearch(query: string, o: Order) {
    Includes(Lower(o.id), Lower(query)) || Includes(Lower(o.customerName), Lower(query))
  }

  predicate OrderShown(query: string, status: Choice<OrderStatus>, o: Order) {
    MatchesSearch(query, o) && Admits(status, o.status)
  }

  /** `filteredOrders`: the matching orders, in the store's order. */
  function FilteredOrders(orders: seq<Order>, query: string, status: Choice<OrderStatus>): (r: seq<Order>)
    ensures Seqs.SubsequenceOf(r, orders)
    ensures forall i :: 0 <= i < |r| ==> OrderShown(query, status, r[i])
    ensures forall i :: 0 <= i < |orders| && OrderShown(query, status, orders[i]) ==> orders[i] in r
  {
    Seqs.FilterIsSubsequence(orders, (o: Order) => OrderShown(query, status, o));
    Seqs.Filter(orders, (o: Order) => OrderShown(query, status, o))
  }

  /** With no search text and "All", every order is listed, in order. */
  lemma EmptyQueryShowsAll(orders: seq<Order>)
    ensures FilteredOrders(orders, "", All) == orders
  {
    forall i | 0 <= i < |orders| ensures OrderShown("", All, orders[i]) {
      assert Lower("") == "";
      assert StartsWith(Lower(orders[i].id), "");
    }
    Seqs.FilterKeepsAll(orders, (o: Order) => OrderShown("", All, o));
  }

  /** The options of a row's status select: all five for delivery, four for collection. */
  function StatusOptions(t: DeliveryType): (r: seq<OrderStatus>)
    ensures t == Collection ==> OutForDelivery !in r && |r| == 4
    ensures t == Delivery ==> |r| == 5
  {
    match t
    case Delivery => [Ordered, Preparing, Ready, OutForDelivery, Completed]
    case Collection => [Ordered, Preparing, Ready, Completed]
  }

  /** The select offers exactly the steps of the customer's timeline for that delivery type. */
  lemma OptionsAreTimelineSteps(t: DeliveryType)
    ensures StatusOptions(t) == OrderTracking.StatusSteps(t)
  {
  }

  /**
   * Choosing an option, earlier or later than the current status, sets it on the order with
   * that id: the store applies no transition rule.
   */
  method SelectStatus(store: AppStore, order: Order, status: OrderStatus)
    requires status in StatusOptions(order.deliveryType)
    modifies store
    ensures store.orders == OrdersSetStatus(old(store.orders), order.id, status)
    ensures forall i :: 0 <= i < |store.orders| && old(store.orders[i].id) == order.id ==> store.orders[i].status == status
    ensures store.cart == old(store.cart) && store.reservations == old(store.reservations)
    ensures store.menu == old(store.menu) && store.currentUser == old(store.currentUser)
    ensures store.authToken == old(store.authToken) && store.loadingMenu == old(store.loadingMenu) && store.errorMenu == old(store.errorMenu)
  {
    store.UpdateOrderStatus(order.id, status);
  }
}
