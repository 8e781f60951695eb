/**
 * The "My bookings" panel of the user dashboard: the signed-in user's
 * bookings split into the Upcoming, Past and Cancelled tabs, and the actions
 * each booking card offers.
 */
module UserBookingsPanel {
  import opened Wrappers
  import opened Types
  import opened Seqs
  import BookingContext

  /** The id the panel looks bookings up by: the signed-in user's, or "" for nobody. */
  function PanelUserId(currentUser: Option<User>): string {
    if currentUser.Some? then currentUser.value.id else ""
  }

  /** Upcoming: still pending or confirmed, and not yet over. */
  predicate IsUpcoming(b: Booking, now: Instant) {
    (b.status == Pending || b.status == Confirmed) && b.endDate >= now
  }

  /** Past: completed, or over whatever its status. */
  predicate IsPast(b: Booking, now: Instant) {
    b.status == Completed || b.endDate < now
  }

  predicate IsCancelled(b: Booking) {
    b.status == Cancelled
  }

  function Tab(p: Booking -> bool, bookings: seq<Booking>, userId: string): (r: seq<Booking>)
    ensures forall i :: 0 <= i < |r| ==> p(r[i]) && r[i].userId == userId
    ensures forall i :: 0 <= i < |bookings| && bookings[i].userId == userId && p(bookings[i]) ==> bookings[i] in r
    ensures IsSubsequence(r, bookings)
  {
    var mine := BookingContext.UserBookings(bookings, userId);
    FilterFilter(bookings, BookingContext.OfUser(userId), p);
    FilterIsSubsequence(bookings, And(BookingContext.OfUser(userId), p));
    Filter(mine, p)
  }

  function Upcoming(bookings: seq<Booking>, userId: string, now: Instant): seq<Booking> {
    Tab((b: Booking) => IsUpcoming(b, now), bookings, userId)
  }

  function Past(bookings: seq<Booking>, userId: string, now: Instant): seq<Booking> {
    Tab((b: Booking) => IsPast(b, now), bookings, userId)
  }

  function CancelledTab(bookings: seq<Booking>, userId: string): seq<Booking> {
    Tab(IsCancelled, bookings, userId)
  }

  /** Upcoming shares no booking with Past or Cancelled, and every booking of the user is on
      at least one of the three tabs. */
  lemma TabsDisjointAndCovering(bookings: seq<Booking>, userId: string, now: Instant)
    ensures forall i :: 0 <= i < |Upcoming(bookings, userId, now)| ==>
              var b := Upcoming(bookings, userId, now)[i];
              b !in Past(bookings, userId, now) && b !in CancelledTab(bookings, userId)
    ensures forall i :: 0 <= i < |bookings| && bookings[i].userId == userId ==>
              || bookings[i] in Upcoming(bookings, userId, now)
              || bookings[i] in Past(bookings, userId, now)
              || bookings[i] in CancelledTab(bookings, userId)
  {
    var up := Upcoming(bookings, userId, now);
    var past := Past(bookings, userId, now);
    var cancelled := CancelledTab(bookings, userId);
    forall i | 0 <= i < |up| ensures up[i] !in past && up[i] !in cancelled {
      assert IsUpcoming(up[i], now);
      assert forall j :: 0 <= j < |past| ==> IsPast(past[j], now);
      assert forall j :: 0 <= j < |cancelled| ==> IsCancelled(cancelled[j]);
    }
    forall i | 0 <= i < |bookings| && bookings[i].userId == userId
      ensures bookings[i] in up || bookings[i] in past || bookings[i] in cancelled
    {
      var b := bookings[i];
      if !IsUpcoming(b, now) && !IsCancelled(b) {
        assert IsPast(b, now);
      }
    }
  }

  /** A cancelled booking that is over appears on both the Past and the Cancelled tab. */
  lemma CancelledAndOverIsOnTwoTabs(bookings: seq<Booking>, i: nat, now: Instant)
    requires i < |bookings| && bookings[i].status == Cancelled && bookings[i].endDate < now
    ensures bookings[i] in Past(bookings, bookings[i].userId, now)
    ensures bookings[i] in CancelledTab(bookings, bookings[i].userId)
  {
  }

  /** "Cancel" is offered for pending and confirmed bookings. */
  predicate OffersCancel(b: Booking) {
    b.status == Pending || b.status == Confirmed
  }

  /** "Make Payment" is offered for confirmed bookings not yet paid. */
  predicate OffersPayment(b: Booking) {
    b.status == Confirmed && b.paymentStatus != PaymentCompleted
  }

  /** "Write Review" is offered for completed bookings. */
  predicate OffersReview(b: Booking) {
    b.status == Completed
  }

  /** A booking offering payment also offers cancelling, and no booking offers both
      cancelling and reviewing. Every upcoming booking can be cancelled. */
  lemma ActionsAreConsistent(b: Booking, now: Instant)
    ensures OffersPayment(b) ==> OffersCancel(b)
    ensures !(OffersCancel(b) && OffersReview(b))
    ensures IsUpcoming(b, now) ==> OffersCancel(b)
  {
  }

  /** Cancelling a booking from its card takes it off the Upcoming tab, puts it on the
      Cancelled tab, and leaves it offering no action at all. */
  lemma CancelMovesToCancelledTab(bookings: seq<Booking>, id: string, now: Instant, later: Instant)
    requires exists i :: 0 <= i < |bookings| && bookings[i].id == id
    ensures var r := BookingContext.StatusUpdated(bookings, id, Cancelled, now);
            && r.Some?
            && var b := r.value[BookingContext.IndexOf(bookings, id)];
            && b in CancelledTab(r.value, b.userId)
            && b !in Upcoming(r.value, b.userId, later)
            && !OffersCancel(b) && !OffersPayment(b) && !OffersReview(b)
  {
    var r := BookingContext.StatusUpdated(bookings, id, Cancelled, now);
    var k := BookingContext.IndexOf(bookings, id);
    var b := r.value[k];
    assert b.status == Cancelled;
    var up := Upcoming(r.value, b.userId, later);
    assert forall j :: 0 <= j < |up| ==> IsUpcoming(up[j], later);
  }

  /** The confirmation dialog's "Cancel booking": nothing without a selected booking,
      otherwise exactly the store's `cancelBooking` for it. */
  method HandleCancelBooking(store: BookingContext.BookingStore, selected: Option<Booking>, now: Instant)
    returns (ok: bool)
    modifies store
    ensures selected.None? ==> !ok && store.allBookings == old(store.allBookings)
    ensures selected.Some? ==>
      var r := BookingContext.StatusUpdated(old(store.allBookings), selected.value.id, Cancelled, now);
      ok == r.Some? && store.allBookings == (if ok then r.value else old(store.allBookings))
    ensures store.allPayments == old(store.allPayments)
  {
    if selected.None? {
      return false;
    }
    ok := store.CancelBooking(selected.value.id, now);
  }
}
