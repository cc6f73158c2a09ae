/**
 * The customer's order tracking page: which orders are listed, the status steps of each order,
 * and how a step is marked (done, current or still to come).
 */
module OrderTracking {
  import opened Wrappers
  import opened Text
  import opened AppContext
  import Seqs

  /** The five statuses in their fixed order, as the icon and colour helpers list them. */
  const AllSteps: seq<OrderStatus> := [Ordered, Preparing, Ready, OutForDelivery, Completed]

  /** `s.indexOf(x)`: the first position of `x`, or -1 when it is absent. */
  function IndexOf<T(==)>(s: seq<T>, x: T): (i: int)
    ensures -1 <= i < |s|
    ensures i == -1 <==> x !in s
    ensures 0 <= i ==> s[i] == x && forall j :: 0 <= j < i ==> s[j] != x
    decreases |s|
  {
    if |s| == 0 then -1
    else if s[0] == x then 0
    else
      var i := IndexOf(s[1..], x);
      if i == -1 then -1 else i + 1
  }

  /** Logged in: the orders placed under the user's name, ignoring case. Logged out: every order. */
  function UserOrders(orders: seq<Order>, currentUser: Option<User>): (r: seq<Order>)
    ensures currentUser.None? ==> r == orders
    ensures Seqs.SubsequenceOf(r, orders)
    ensures currentUser.Some? ==> forall i :: 0 <= i < |r| ==> Lower(r[i].customerName) == Lower(currentUser.value.name)
    ensures currentUser.Some? ==> forall i :: 0 <= i < |orders| && Lower(orders[i].customerName) == Lower(currentUser.value.name) ==> orders[i] in r
  {
    match currentUser
    case None =>
      SubsequenceRefl(orders);
      orders
    case Some(u) =>
      Seqs.FilterIsSubsequence(orders, (o: Order) => Lower(o.customerName) == Lower(u.name));
      Seqs.Filter(orders, (o: Order) => Lower(o.customerName) == Lower(u.name))
  }

  lemma {:induction false} SubsequenceRefl(s: seq<Order>)
    ensures Seqs.SubsequenceOf(s, s)
    decreases |s|
  {
    if |s| > 0 {
      SubsequenceRefl(s[1..]);
    }
  }

  /** The page shows its empty state when no order is listed. */
  predicate ShowsEmptyState(orders: seq<Order>, currentUser: Option<User>) {
    |UserOrders(orders, currentUser)| == 0
  }

  /** `statusSteps`: five steps for delivery, four for collection (no "out for delivery"). */
  function StatusSteps(t: DeliveryType): (steps: seq<OrderStatus>)
    ensures t == Delivery ==> |steps| == 5 && OutForDelivery in steps
    ensures t == Collection ==> |steps| == 4 && OutForDelivery !in steps
    ensures Ordered in steps && Completed in steps && steps[0] == Ordered && steps[|steps| - 1] == Completed
  {
    match t
    case Delivery => AllSteps
    case Collection => [Ordered, Preparing, Ready, Completed]
  }

  /** Step `index` of the order's timeline is active: the order's status sits at or after it. */
  predicate IsActive(order: Order, index: int) {
    IndexOf(StatusSteps(order.deliveryType), order.status) >= index
  }

  predicate IsCurrent(order: Order, step: OrderStatus) {
    order.status == step
  }

  datatype Icon = Done | Current | Upcoming

  /** `getStatusIcon`: compares positions in the fixed five-status list. */
  function StatusIcon(step: OrderStatus, current: OrderStatus): Icon {
    var stepIndex := IndexOf(AllSteps, step);
    var currentIndex := IndexOf(AllSteps, current);
    if stepIndex < currentIndex then Done
    else if stepIndex == currentIndex then Current
    else Upcoming
  }

  /** `getStatusColor`: the step is highlighted when it is not after the current status. */
  predicate StatusHighlighted(step: OrderStatus, current: OrderStatus) {
    IndexOf(AllSteps, step) <= IndexOf(AllSteps, current)
  }

  /** The steps of either timeline are distinct and appear in the fixed order. */
  lemma StepsOrdered(t: DeliveryType, i: int, j: int)
    requires 0 <= i < j < |StatusSteps(t)|
    ensures IndexOf(AllSteps, StatusSteps(t)[i]) < IndexOf(AllSteps, StatusSteps(t)[j])
  {
  }

  /**
   * On an order whose status is one of its steps, step `k` is active iff the status is at or
   * after it; active steps form a prefix of the timeline, ending at the current one.
   */
  lemma ActiveSteps(order: Order, k: int)
    requires 0 <= k < |StatusSteps(order.deliveryType)|
    requires order.status in StatusSteps(order.deliveryType)
    ensures var steps := StatusSteps(order.deliveryType);
      IsActive(order, k) <==> exists j :: k <= j < |steps| && steps[j] == order.status
    ensures forall i :: 0 <= i <= k && IsActive(order, k) ==> IsActive(order, i)
  {
    var steps := StatusSteps(order.deliveryType);
    var c := IndexOf(steps, order.status);
    if exists j :: k <= j < |steps| && steps[j] == order.status {
      var j :| k <= j < |steps| && steps[j] == order.status;
      if j != c {
        StepsDistinct(order.deliveryType, j, c);
      }
    }
  }

  lemma StepsDistinct(t: DeliveryType, i: int, j: int)
    requires 0 <= i < |StatusSteps(t)| && 0 <= j < |StatusSteps(t)| && i != j
    ensures StatusSteps(t)[i] != StatusSteps(t)[j]
  {
    if i < j {
      StepsOrdered(t, i, j);
    } else {
      StepsOrdered(t, j, i);
    }
  }

  /**
   * For an order whose status is one of its steps, the icon and colour helpers, which look at
   * the fixed five-status list, agree with the timeline's active and current flags.
   */
  lemma IconAgreesWithTimeline(order: Order, k: int)
    requires 0 <= k < |StatusSteps(order.deliveryType)|
    requires order.status in StatusSteps(order.deliveryType)
    ensures var step := StatusSteps(order.deliveryType)[k];
      && (StatusIcon(step, order.status) == Current <==> IsCurrent(order, step))
      && (StatusIcon(step, order.status) == Done <==> IsActive(order, k) && !IsCurrent(order, step))
      && (StatusIcon(step, order.status) == Upcoming <==> !IsActive(order, k))
      && (StatusHighlighted(step, order.status) <==> IsActive(order, k))
  {
    var steps := StatusSteps(order.deliveryType);
    var c := IndexOf(steps, order.status);
    if k < c {
      StepsOrdered(order.deliveryType, k, c);
    } else if c < k {
      StepsOrdered(order.deliveryType, c, k);
    }
  }

  /** A collection order set to "out for delivery" has no active and no current step. */
  lemma CollectionOutForDelivery(order: Order)
    requires order.deliveryType == Collection && order.status == OutForDelivery
    ensures forall k :: 0 <= k < |StatusSteps(order.deliveryType)| ==>
      !IsActive(order, k) && !IsCurrent(order, StatusSteps(order.deliveryType)[k])
  {
  }
}
