/**
 * The staff reservation list: search, date and status filters, and the buttons offered for
 * each reservation, which forward a new status to the store.
 */
module StaffReservations {
  import opened Wrappers
  import opened Text
  import opened AppContext
  import Seqs

  /** Name or email contain the text ignoring case, or the phone contains it exactly. */
  predicate MatchesSearch(query: string, v: Reservation) {
    || Includes(Lower(v.customerName), Lower(query))
    || Includes(Lower(v.customerEmail), Lower(query))
    || Includes(v.customerPhone, query)
  }

  /** An empty date filter admits every date; any other must equal the reservation's date. */
  predicate MatchesDate(dateFilter: string, v: Reservation) {
    dateFilter == "" || v.date == dateFilter
  }

  predicate ReservationShown(query: string, dateFilter: string, status: Choice<ReservationStatus>, v: Reservation) {
    MatchesSearch(query, v) && MatchesDate(dateFilter, v) && Admits(status, v.status)
  }

  /** `filteredReservations`: the matching reservations, in the store's order. */
  function FilteredReservations(reservations: seq<Reservation>, query: string, dateFilter: string,
                                status: Choice<ReservationStatus>): (r: seq<Reservation>)
    ensures Seqs.SubsequenceOf(r, reservations)
    ensures forall i :: 0 <= i < |r| ==> ReservationShown(query, dateFilter, status, r[i])
    ensures forall i :: 0 <= i < |reservations| && ReservationShown(query, dateFilter, status, reservations[i]) ==>
      reservations[i] in r
  {
    Seqs.FilterIsSubsequence(reservations, (v: Reservation) => ReservationShown(query, dateFilter, status, v));
    Seqs.Filter(reservations, (v: Reservation) => ReservationShown(query, dateFilter, status, v))
  }

  /** With no search text, no date and "All", every reservation is listed. */
  lemma NoFilterShowsAll(reservations: seq<Reservation>)
    ensures FilteredReservations(reservations, "", "", All) == reservations
  {
    forall i | 0 <= i < |reservations| ensures ReservationShown("", "", All, reservations[i]) {
      assert Lower("") == "";
      assert StartsWith(Lower(reservations[i].customerName), "");
    }
    Seqs.FilterKeepsAll(reservations, (v: Reservation) => ReservationShown("", "", All, v));
  }

  /** A button on a reservation card and the status it sends. */
  datatype Action = Action(caption: string, target: ReservationStatus)

  /** The buttons offered for a reservation in each status. */
  function Actions(s: ReservationStatus): (r: seq<Action>)
    ensures s == Cancelled <==> r == []
  {
    match s
    case Pending => [Action("Confirm", Confirmed), Action("Cancel", Cancelled)]
    case Confirmed => [Action("Cancel Reservation", Cancelled)]
    case Cancelled => []
  }

  /**
   * The reservation life cycle: pending may become confirmed or cancelled, confirmed may
   * become cancelled, and cancelled is final.
   */
  predicate AllowedTransition(from: ReservationStatus, to: ReservationStatus) {
    || (from == Pending && to == Confirmed)
    || (from == Pending && to == Cancelled)
    || (from == Confirmed && to == Cancelled)
  }

  /** The buttons offer exactly the allowed transitions, each once. */
  lemma ActionsAreAllowedTransitions(from: ReservationStatus, to: ReservationStatus)
    ensures AllowedTransition(from, to) <==> exists i :: 0 <= i < |Actions(from)| && Actions(from)[i].target == to
    ensures forall i, j :: 0 <= i < j < |Actions(from)| ==> Actions(from)[i].target != Actions(from)[j].target
  {
    if AllowedTransition(from, to) {
      var acts := Actions(from);
      if from == Pending && to == Cancelled {
        assert acts[1].target == to;
      } else {
        assert acts[0].target == to;
      }
    }
  }

  /** Pressing a button sends its status for that reservation's id. */
  method Press(store: AppStore, v: Reservation, a: Action)
    requires a in Actions(v.status)
    modifies store
    ensures store.reservations == ReservationsSetStatus(old(store.reservations), v.id, a.target)
    ensures store.cart == old(store.cart) && store.orders == old(store.orders)
    ensures store.menu == old(store.menu) && store.currentUser == old(store.currentUser)
    ensures store.authToken == old(store.authToken) && store.loadingMenu == old(store.loadingMenu) && store.errorMenu == old(store.errorMenu)
  {
    store.UpdateReservationStatus(v.id, a.target);
  }
}
