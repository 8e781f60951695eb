/**
 * The administrators' bookings page: the search box and status tabs over all
 * bookings, the per-status counts, and the dialogs that change a booking's
 * status.
 */
module AdminBookingsPage {
  import opened Wrappers
  import opened Types
  import opened Seqs
  import opened Text
  import BookingContext

  /** The search: user name, email, bike name and shop name ignoring case; phone and
      booking id as typed. */
  predicate MatchesSearch(b: Booking, term: string) {
    || ContainsIgnoreCase(b.userName, term)
    || Contains(b.userPhone, term)
    || ContainsIgnoreCase(b.userEmail, term)
    || ContainsIgnoreCase(b.bikeName, term)
    || ContainsIgnoreCase(b.shopName, term)
    || Contains(b.id, term)
  }

  /** The selected tab: "all" (None) or one status. */
  predicate OnTab(b: Booking, tab: Option<BookingStatus>) {
    tab.None? || b.status == tab.value
  }

  /** `filteredBookings`: the bookings matching the search and on the tab, in store order. */
  function FilteredBookings(all: seq<Booking>, term: string, tab: Option<BookingStatus>): (r: seq<Booking>)
    ensures forall i :: 0 <= i < |r| ==> MatchesSearch(r[i], term) && OnTab(r[i], tab)
    ensures forall i :: 0 <= i < |all| && MatchesSearch(all[i], term) && OnTab(all[i], tab) ==> all[i] in r
    ensures IsSubsequence(r, all)
  {
    var p := (b: Booking) => MatchesSearch(b, term) && OnTab(b, tab);
    FilterIsSubsequence(all, p);
    Filter(all, p)
  }

  /** An empty search box hides nothing: on the "all" tab every booking is listed, in order. */
  lemma {:induction false} EmptySearchListsAll(all: seq<Booking>)
    ensures FilteredBookings(all, "", None) == all
  {
    forall i | 0 <= i < |all| ensures MatchesSearch(all[i], "") {
      ContainsEmpty(Lower(all[i].userName));
    }
    FilterKeepsAll(all, (b: Booking) => MatchesSearch(b, "") && OnTab(b, None));
  }

  function HasStatus(s: BookingStatus): Booking -> bool { (b: Booking) => b.status == s }

  /** The number of bookings with the status. */
  function StatusCount(all: seq<Booking>, s: BookingStatus): (n: nat)
    ensures n <= |all|
  {
    Count(all, HasStatus(s))
  }

  /** Every booking has exactly one of the four statuses, so the four counts add up to the
      number of bookings. */
  lemma {:induction false} StatusCountsSum(all: seq<Booking>)
    ensures StatusCount(all, Pending) + StatusCount(all, Confirmed)
          + StatusCount(all, Cancelled) + StatusCount(all, Completed) == |all|
    decreases |all|
  {
    if |all| > 0 {
      StatusCountsSum(all[1..]);
    }
  }

  /** A tab's listing with an empty search has as many entries as its status count. */
  lemma TabSizeIsCount(all: seq<Booking>, s: BookingStatus)
    ensures |FilteredBookings(all, "", Some(s))| == StatusCount(all, s)
  {
    forall i | 0 <= i < |all|
      ensures (MatchesSearch(all[i], "") && OnTab(all[i], Some(s))) == HasStatus(s)(all[i])
    {
      ContainsEmpty(Lower(all[i].userName));
    }
    FilterSamePredicate(all, (b: Booking) => MatchesSearch(b, "") && OnTab(b, Some(s)), HasStatus(s));
  }

  /** The row's status button is enabled only while the booking is pending or confirmed. */
  predicate StatusButtonEnabled(b: Booking) {
    b.status != Completed && b.status != Cancelled
  }

  /** The step of the booking lifecycle: pending to confirmed or cancelled, confirmed to
      completed or cancelled. */
  predicate LifecycleStep(from: BookingStatus, to: BookingStatus) {
    || (from == Pending && (to == Confirmed || to == Cancelled))
    || (from == Confirmed && (to == Completed || to == Cancelled))
  }

  /** The buttons of the detail dialog: none for a finished booking, Cancel for an open one,
      Confirm from pending and Complete from confirmed. */
  function DetailDialogOffers(s: BookingStatus): (r: seq<BookingStatus>)
    ensures forall t :: t in r <==> LifecycleStep(s, t)
  {
    if s == Cancelled || s == Completed then []
    else if s == Pending then [Cancelled, Confirmed]
    else [Cancelled, Completed]
  }

  /** The page's dialog state. */
  class AdminBookingsView {
    var selectedBooking: Option<Booking>
    var selectedStatus: BookingStatus
    var isUpdateStatusOpen: bool
    var isViewBookingOpen: bool

    constructor ()
      ensures selectedBooking == None && selectedStatus == Pending
      ensures !isUpdateStatusOpen && !isViewBookingOpen
    {
      selectedBooking := None;
      selectedStatus := Pending;
      isUpdateStatusOpen := false;
      isViewBookingOpen := false;
    }

    /** The row's status button: opens the update dialog on the booking's current status. */
    method OpenStatusDialog(b: Booking)
      requires StatusButtonEnabled(b)
      modifies this
      ensures selectedBooking == Some(b) && selectedStatus == b.status && isUpdateStatusOpen
      ensures isViewBookingOpen == old(isViewBookingOpen)
    {
      selectedBooking := Some(b);
      selectedStatus := b.status;
      isUpdateStatusOpen := true;
    }

    /** A button of the detail dialog: moves to the update dialog with the status it names. */
    method ChooseInDetailDialog(to: BookingStatus)
      requires selectedBooking.Some? && to in DetailDialogOffers(selectedBooking.value.status)
      modifies this
      ensures selectedStatus == to && isUpdateStatusOpen && !isViewBookingOpen
      ensures selectedBooking == old(selectedBooking)
      ensures LifecycleStep(old(selectedBooking).value.status, selectedStatus)
    {
      selectedStatus := to;
      isViewBookingOpen := false;
      isUpdateStatusOpen := true;
    }

    /** The select of the update dialog: any of the four statuses. */
    method SelectStatus(to: BookingStatus)
      modifies this
      ensures selectedStatus == to
      ensures selectedBooking == old(selectedBooking) && isUpdateStatusOpen == old(isUpdateStatusOpen)
      ensures isViewBookingOpen == old(isViewBookingOpen)
    {
      selectedStatus := to;
    }

    /** `handleUpdateStatus`: forwards the chosen status unchanged to the store's
        `updateBookingStatus`; on success the dialog closes and the selection is cleared. */
    method HandleUpdateStatus(store: BookingContext.BookingStore, now: Instant) returns (ok: bool)
      modifies this, store
      ensures old(selectedBooking).None? ==>
        !ok && store.allBookings == old(store.allBookings) && selectedBooking == old(selectedBooking)
      ensures old(selectedBooking).Some? ==>
        var r := BookingContext.StatusUpdated(old(store.allBookings), old(selectedBooking).value.id,
                                              old(selectedStatus), now);
        ok == r.Some? && store.allBookings == (if ok then r.value else old(store.allBookings))
      ensures ok ==> selectedBooking == None && !isUpdateStatusOpen
      ensures !ok ==> selectedBooking == old(selectedBooking) && isUpdateStatusOpen == old(isUpdateStatusOpen)
      ensures store.allPayments == old(store.allPayments)
      ensures selectedStatus == old(selectedStatus) && isViewBookingOpen == old(isViewBookingOpen)
    {
      if selectedBooking.None? {
        return false;
      }
      var success := store.UpdateBookingStatus(selectedBooking.value.id, selectedStatus, now);
      if success {
        isUpdateStatusOpen := false;
        selectedBooking := None;
      }
      return success;
    }
  }

  /** The detail dialog follows the lifecycle, but the update dialog's select does not: the
      status button of a confirmed booking is enabled, and choosing "pending" there moves it
      back, because the store checks no transition. */
  lemma SelectBypassesLifecycle(bookings: seq<Booking>, k: nat, now: Instant)
    requires k < |bookings| && bookings[k].status == Confirmed
    requires forall j :: 0 <= j < k ==> bookings[j].id != bookings[k].id
    ensures StatusButtonEnabled(bookings[k]) && !LifecycleStep(Confirmed, Pending)
    ensures BookingContext.StatusUpdated(bookings, bookings[k].id, Pending, now).Some?
    ensures BookingContext.StatusUpdated(bookings, bookings[k].id, Pending, now).value[k].status == Pending
  {
    BookingContext.AnyStatusCanFollowAny(bookings, k, Pending, now);
  }
}
