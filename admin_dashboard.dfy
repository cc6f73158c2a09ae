/**
 * The admin dashboard's figures: today's orders, revenue and reservations, the per-status
 * order counts, the five most recent orders and the next five open reservations. The current
 * time is a parameter in ISO form.
 */
module AdminDashboard {
  import opened Text
  import opened AppContext
  import Seqs

  /** `s.split('T')[0]`: the date part of an ISO timestamp (all of `s` when it has no `T`). */
  function DatePart(s: string): (d: string)
    ensures 'T' !in d
    ensures |d| <= |s| && d == s[..|d|]
    ensures 'T' !in s ==> d == s
    ensures 'T' in s ==> |d| < |s| && s[|d|] == 'T'
  {
    var parts := Split(s, "T");
    SplitPiecesFree(s, 'T');
    assert parts[0] in parts;
    match FindSub(s, "T")
    case None =>
      assert Join(parts, "T") == parts[0];
      assert 'T' !in s by {
        forall i | 0 <= i < |s| ensures s[i] != 'T' {
          OccursAtChar(s, 'T', i);
        }
      }
      parts[0]
    case Some(k) =>
      OccursAtChar(s, 'T', k);
      parts[0]
  }

  /** The date part of `date + "T" + time` is `date` when the date has no `T`. */
  lemma DatePartOfTimestamp(date: string, time: string)
    requires 'T' !in date
    ensures DatePart(date + "T" + time) == date
  {
    var s := date + "T" + time;
    var d := DatePart(s);
    assert s[|date|] == 'T';
    assert forall i :: 0 <= i < |date| ==> s[i] == date[i];
    assert forall i :: 0 <= i < |d| ==> s[i] == d[i];
  }

  function Today(nowIso: string): string {
    DatePart(nowIso)
  }

  /** `todayOrders`: the orders created on today's date, in order. */
  function TodayOrders(orders: seq<Order>, nowIso: string): (r: seq<Order>)
    ensures Seqs.SubsequenceOf(r, orders)
    ensures forall i :: 0 <= i < |r| ==> DatePart(r[i].createdAt) == Today(nowIso) && r[i] in orders
    ensures forall i :: 0 <= i < |orders| && DatePart(orders[i].createdAt) == Today(nowIso) ==> orders[i] in r
  {
    Seqs.FilterIsSubsequence(orders, (o: Order) => DatePart(o.createdAt) == Today(nowIso));
    Seqs.Filter(orders, (o: Order) => DatePart(o.createdAt) == Today(nowIso))
  }

  /** Σ total over the orders. */
  function SumTotals(orders: seq<Order>): real
    decreases |orders|
  {
    if |orders| == 0 then 0.0 else orders[0].total + SumTotals(orders[1..])
  }

  /** `todayRevenue`. */
  function TodayRevenue(orders: seq<Order>, nowIso: string): real {
    SumTotals(TodayOrders(orders, nowIso))
  }

  /** `todayReservations`: the reservations whose date is today's date. */
  function TodayReservations(reservations: seq<Reservation>, nowIso: string): (r: seq<Reservation>)
    ensures Seqs.SubsequenceOf(r, reservations)
    ensures forall i :: 0 <= i < |r| ==> r[i].date == Today(nowIso) && r[i] in reservations
    ensures forall i :: 0 <= i < |reservations| && reservations[i].date == Today(nowIso) ==> reservations[i] in r
  {
    Seqs.FilterIsSubsequence(reservations, (v: Reservation) => v.date == Today(nowIso));
    Seqs.Filter(reservations, (v: Reservation) => v.date == Today(nowIso))
  }

  lemma {:induction false} SumTotalsAppend(a: seq<Order>, b: seq<Order>)
    ensures SumTotals(a + b) == SumTotals(a) + SumTotals(b)
    decreases |a|
  {
    if |a| == 0 {
      assert a + b == b;
    } else {
      assert (a + b)[1..] == a[1..] + b;
      SumTotalsAppend(a[1..], b);
    }
  }

  /** A new order adds its total to today's revenue when it was created today, and nothing otherwise. */
  lemma TodayRevenueAfterOrder(orders: seq<Order>, o: Order, nowIso: string)
    ensures TodayRevenue(orders + [o], nowIso)
         == TodayRevenue(orders, nowIso) + (if DatePart(o.createdAt) == Today(nowIso) then o.total else 0.0)
  {
    var p := (x: Order) => DatePart(x.createdAt) == Today(nowIso);
    Seqs.FilterAppend(orders, [o], p);
    SumTotalsAppend(Seqs.Filter(orders, p), Seqs.Filter([o], p));
    assert [o][1..] == [];
  }

  /** The number of orders in one status. */
  function StatusCount(orders: seq<Order>, s: OrderStatus): (n: nat)
    ensures n <= |orders|
  {
    |Seqs.Filter(orders, (o: Order) => o.status == s)|
  }

  /** The bar width for one status, in percent; 0 when there are no orders. */
  function Percentage(orders: seq<Order>, s: OrderStatus): (p: real)
    ensures |orders| == 0 ==> p == 0.0
    ensures 0.0 <= p <= 100.0
  {
    if |orders| > 0 then
      PercentBounds(StatusCount(orders, s), |orders|);
      (StatusCount(orders, s) as real / |orders| as real) * 100.0
    else 0.0
  }

  /** A part of a positive whole is between 0 and 100 percent of it. */
  lemma PercentBounds(part: nat, whole: nat)
    requires 0 < whole && part <= whole
    ensures 0.0 <= (part as real / whole as real) * 100.0 <= 100.0
  {
    var r := part as real / whole as real;
    assert r * whole as real == part as real;
    assert r <= 1.0;
  }

  /** Every order has one of the five statuses, so the five counts add up to the number of orders. */
  lemma {:induction false} StatusCountsSum(orders: seq<Order>)
    ensures StatusCount(orders, Ordered) + StatusCount(orders, Preparing) + StatusCount(orders, Ready)
          + StatusCount(orders, OutForDelivery) + StatusCount(orders, Completed) == |orders|
    decreases |orders|
  {
    if |orders| > 0 {
      StatusCountsSum(orders[1..]);
    }
  }

  /** "Recent orders": the first five orders in the order they were placed. */
  function RecentOrders(orders: seq<Order>): (r: seq<Order>)
    ensures |r| == if |orders| < 5 then |orders| else 5
    ensures r == orders[..|r|]
  {
    Seqs.Take(orders, 5)
  }

  predicate Upcoming(v: Reservation) {
    v.status == Confirmed || v.status == Pending
  }

  /** "Upcoming reservations": the first five that are pending or confirmed, in list order. */
  function UpcomingReservations(reservations: seq<Reservation>): (r: seq<Reservation>)
    ensures |r| == if |Seqs.Filter(reservations, Upcoming)| < 5 then |Seqs.Filter(reservations, Upcoming)| else 5
    ensures forall i :: 0 <= i < |r| ==> Upcoming(r[i]) && r[i] in reservations
    ensures r == Seqs.Filter(reservations, Upcoming)[..|r|]
  {
    Seqs.Take(Seqs.Filter(reservations, Upcoming), 5)
  }

  /** A cancelled reservation is never listed as upcoming. */
  lemma CancelledNotUpcoming(reservations: seq<Reservation>, k: int)
    requires 0 <= k < |reservations| && reservations[k].status == Cancelled
    ensures reservations[k] !in UpcomingReservations(reservations)
  {
  }
}
