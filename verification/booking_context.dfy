/**
 * The booking store: the bookings and payments collections, the lookups over
 * them, the status and payment updates, and the availability test.
 *
 * The clock reading `new Date().toISOString()` is the parameter `now`.
 */
module BookingContext {
  import opened Wrappers
  import opened Types
  import opened Seqs
  import Text
  import Ids

  /** `booking${n}` and `payment${n}`. */
  function BookingId(n: nat): string { Text.Id("booking", n) }
  function PaymentId(n: nat): string { Text.Id("payment", n) }

  function WithId(id: string): Booking -> bool { (b: Booking) => b.id == id }
  function OfUser(userId: string): Booking -> bool { (b: Booking) => b.userId == userId }
  function OfShop(shopId: string): Booking -> bool { (b: Booking) => b.shopId == shopId }
  function OfBike(bikeId: string): Booking -> bool { (b: Booking) => b.bikeId == bikeId }

  // ---------------------------------------------------------------- lookups

  /** `userBookings(userId)`: the user's bookings, in store order. */
  function UserBookings(bookings: seq<Booking>, userId: string): (r: seq<Booking>)
    ensures forall i :: 0 <= i < |r| ==> r[i].userId == userId
    ensures forall i :: 0 <= i < |bookings| && bookings[i].userId == userId ==> bookings[i] in r
    ensures IsSubsequence(r, bookings)
  {
    FilterIsSubsequence(bookings, OfUser(userId));
    Filter(bookings, OfUser(userId))
  }

  /** `shopBookings(shopId)`: the shop's bookings, in store order. */
  function ShopBookings(bookings: seq<Booking>, shopId: string): (r: seq<Booking>)
    ensures forall i :: 0 <= i < |r| ==> r[i].shopId == shopId
    ensures forall i :: 0 <= i < |bookings| && bookings[i].shopId == shopId ==> bookings[i] in r
    ensures IsSubsequence(r, bookings)
  {
    FilterIsSubsequence(bookings, OfShop(shopId));
    Filter(bookings, OfShop(shopId))
  }

  /** `bikeBookings(bikeId)`: the bike's bookings, in store order. */
  function BikeBookings(bookings: seq<Booking>, bikeId: string): (r: seq<Booking>)
    ensures forall i :: 0 <= i < |r| ==> r[i].bikeId == bikeId
    ensures forall i :: 0 <= i < |bookings| && bookings[i].bikeId == bikeId ==> bookings[i] in r
    ensures IsSubsequence(r, bookings)
  {
    FilterIsSubsequence(bookings, OfBike(bikeId));
    Filter(bookings, OfBike(bikeId))
  }

  /** `findIndex(b => b.id === id)`: the first booking with the id, or -1. */
  function IndexOf(bookings: seq<Booking>, id: string): (k: int)
    ensures -1 <= k < |bookings|
    ensures k == -1 <==> forall i :: 0 <= i < |bookings| ==> bookings[i].id != id
    ensures k >= 0 ==> bookings[k].id == id && forall j :: 0 <= j < k ==> bookings[j].id != id
  {
    FirstIndex(bookings, WithId(id))
  }

  /** `getBookingById`: the first booking with the id, or nothing. */
  function GetBookingById(bookings: seq<Booking>, id: string): (r: Option<Booking>)
    ensures r.None? <==> forall i :: 0 <= i < |bookings| ==> bookings[i].id != id
    ensures r.Some? ==> r.value.id == id && r.value == bookings[IndexOf(bookings, id)]
  {
    Find(bookings, WithId(id))
  }

  // ---------------------------------------------------------------- availability

  /** The three-clause test of a requested range [s, e] against a stored range [bs, be]:
      the start falls inside, or the end falls inside, or the request covers the booking. */
  predicate RangesClash(s: Instant, e: Instant, bs: Instant, be: Instant) {
    || (s >= bs && s < be)
    || (e > bs && e <= be)
    || (s <= bs && e >= be)
  }

  /** A stored booking blocks a request when it is for the same bike, is not cancelled
      and its range clashes with the requested one. */
  predicate Blocks(b: Booking, bikeId: string, range: DateTimeRange) {
    b.bikeId == bikeId && b.status != Cancelled
    && RangesClash(range.startDate, range.endDate, b.startDate, b.endDate)
  }

  function Blocking(bikeId: string, range: DateTimeRange): Booking -> bool {
    (b: Booking) => Blocks(b, bikeId, range)
  }

  /** `checkAvailability`: the bike is free for the range exactly when no stored booking blocks it. */
  function CheckAvailability(bookings: seq<Booking>, bikeId: string, range: DateTimeRange): (ok: bool)
    ensures ok <==> forall i :: 0 <= i < |bookings| ==> !Blocks(bookings[i], bikeId, range)
  {
    var overlapping := Filter(bookings, Blocking(bikeId, range));
    assert |overlapping| > 0 ==> overlapping[0] in bookings;
    |overlapping| == 0
  }

  /** For ranges that are not empty on either side, the three clauses say exactly
      that the half-open intervals [s, e) and [bs, be) overlap. */
  lemma ClashIsHalfOpenOverlap(s: Instant, e: Instant, bs: Instant, be: Instant)
    requires s < e && bs < be
    ensures RangesClash(s, e, bs, be) <==> s < be && bs < e
  {
  }

  /** A stored booking of zero length at t clashes with every request whose closed range
      contains t, although its half-open interval is empty. */
  lemma ZeroLengthBookingClashes(s: Instant, e: Instant, t: Instant)
    ensures RangesClash(s, e, t, t) <==> s <= t <= e
  {
  }

  /** Back-to-back rentals: a request that starts when every other active booking of the bike
      has ended, or ends before it starts, is available. */
  lemma BackToBackAvailable(bookings: seq<Booking>, bikeId: string, range: DateTimeRange)
    requires range.startDate < range.endDate
    requires forall i :: 0 <= i < |bookings| && bookings[i].bikeId == bikeId && bookings[i].status != Cancelled ==>
      bookings[i].startDate < bookings[i].endDate
      && (bookings[i].endDate <= range.startDate || range.endDate <= bookings[i].startDate)
    ensures CheckAvailability(bookings, bikeId, range)
  {
    forall i | 0 <= i < |bookings| ensures !Blocks(bookings[i], bikeId, range) {
      var b := bookings[i];
      if b.bikeId == bikeId && b.status != Cancelled {
        ClashIsHalfOpenOverlap(range.startDate, range.endDate, b.startDate, b.endDate);
      }
    }
  }

  /** Cancelled bookings and other bikes' bookings never make a bike unavailable. */
  lemma OnlyActiveBookingsOfTheBikeBlock(bookings: seq<Booking>, bikeId: string, range: DateTimeRange)
    requires forall i :: 0 <= i < |bookings| ==> bookings[i].bikeId != bikeId || bookings[i].status == Cancelled
    ensures CheckAvailability(bookings, bikeId, range)
  {
  }

  // ---------------------------------------------------------------- creation

  /** The booking record's fields that come from the caller are the caller's. */
  predicate CarriesInput(r: Booking, b: BookingInput) {
    && r.userId == b.userId && r.userName == b.userName && r.userPhone == b.userPhone
    && r.userEmail == b.userEmail && r.bikeId == b.bikeId && r.bikeName == b.bikeName
    && r.bikeImage == b.bikeImage && r.shopId == b.shopId && r.shopName == b.shopName
    && r.startDate == b.startDate && r.endDate == b.endDate && r.duration == b.duration
    && r.totalAmount == b.totalAmount && r.deposit == b.deposit && r.paymentId == b.paymentId
  }

  /** The record `createBooking` appends: the caller's fields, a new id, both statuses
      pending, and one timestamp for creation and last update. */
  function NewBooking(b: BookingInput, id: string, now: Instant): (r: Booking)
    ensures CarriesInput(r, b)
    ensures r.id == id && r.status == Pending && r.paymentStatus == PaymentPending
    ensures r.createdAt == now && r.updatedAt == now
  {
    Booking(id, b.userId, b.userName, b.userPhone, b.userEmail, b.bikeId, b.bikeName,
            b.bikeImage, b.shopId, b.shopName, b.startDate, b.endDate, b.duration,
            b.totalAmount, b.deposit, Pending, b.paymentId, PaymentPending, now, now)
  }

  function BookingIds(bookings: seq<Booking>): seq<string> {
    Map(bookings, (b: Booking) => b.id)
  }

  /** A newly created booking blocks its own range for its bike, even when the range is empty:
      a second request for the same range is refused. */
  lemma NewBookingBlocksItsRange(bookings: seq<Booking>, b: BookingInput, now: Instant)
    ensures !CheckAvailability(bookings + [NewBooking(b, BookingId(|bookings| + 1), now)],
                               b.bikeId, DateTimeRange(b.startDate, b.endDate))
  {
    var all := bookings + [NewBooking(b, BookingId(|bookings| + 1), now)];
    assert Blocks(all[|bookings|], b.bikeId, DateTimeRange(b.startDate, b.endDate));
  }

  /** Adding a booking never makes a bike available that was not. */
  lemma CreateOnlyReducesAvailability(bookings: seq<Booking>, x: Booking, bikeId: string, range: DateTimeRange)
    ensures CheckAvailability(bookings + [x], bikeId, range) ==> CheckAvailability(bookings, bikeId, range)
  {
    if CheckAvailability(bookings + [x], bikeId, range) {
      forall i | 0 <= i < |bookings| ensures !Blocks(bookings[i], bikeId, range) {
        assert (bookings + [x])[i] == bookings[i];
      }
    }
  }

  /** Bookings are never deleted, so while every id was generated by `createBooking`
      the ids stay `booking1`, `booking2`, … and the next one is new. */
  lemma CreateKeepsIdsCanonical(bookings: seq<Booking>, b: BookingInput, now: Instant)
    requires Ids.Canonical(BookingIds(bookings), "booking")
    ensures BookingId(|bookings| + 1) !in BookingIds(bookings)
    ensures Ids.Canonical(BookingIds(bookings + [NewBooking(b, BookingId(|bookings| + 1), now)]), "booking")
  {
    var ids := BookingIds(bookings);
    Ids.NextIdFresh(ids, "booking");
    assert BookingIds(bookings + [NewBooking(b, BookingId(|bookings| + 1), now)])
        == ids + [BookingId(|bookings| + 1)];
  }

  // ---------------------------------------------------------------- status updates

  /** The outcome of `updateBookingStatus`: nothing when no booking has the id; otherwise the
      collection with the first such booking's status and update time overwritten. */
  function StatusUpdated(bookings: seq<Booking>, id: string, status: BookingStatus, now: Instant)
    : (r: Option<seq<Booking>>)
    ensures r.None? <==> forall i :: 0 <= i < |bookings| ==> bookings[i].id != id
    ensures r.Some? ==>
      var k := IndexOf(bookings, id);
      && |r.value| == |bookings|
      && r.value[k] == bookings[k].(status := status, updatedAt := now)
      && forall j :: 0 <= j < |bookings| && j != k ==> r.value[j] == bookings[j]
  {
    UpdateFirst(bookings, WithId(id), (b: Booking) => b.(status := status, updatedAt := now))
  }

  /** There is no transition table: whatever a booking's status is (a cancelled or a
      completed booking included), any status can be written over it. */
  lemma AnyStatusCanFollowAny(bookings: seq<Booking>, k: nat, to: BookingStatus, now: Instant)
    requires k < |bookings|
    requires forall j :: 0 <= j < k ==> bookings[j].id != bookings[k].id
    ensures StatusUpdated(bookings, bookings[k].id, to, now).Some?
    ensures StatusUpdated(bookings, bookings[k].id, to, now).value[k].status == to
  {
    var k' := IndexOf(bookings, bookings[k].id);
    assert k' <= k;
  }

  /** Cancelling touches only the status and the update time: dates, amounts and payment
      fields of the booking are what they were. */
  lemma CancelKeepsTerms(bookings: seq<Booking>, id: string, now: Instant)
    requires StatusUpdated(bookings, id, Cancelled, now).Some?
    ensures var k := IndexOf(bookings, id);
            var c := StatusUpdated(bookings, id, Cancelled, now).value[k];
            && c.status == Cancelled && c.updatedAt == now
            && c.startDate == bookings[k].startDate && c.endDate == bookings[k].endDate
            && c.totalAmount == bookings[k].totalAmount && c.deposit == bookings[k].deposit
            && c.paymentId == bookings[k].paymentId && c.paymentStatus == bookings[k].paymentStatus
  {
  }

  /** A status update never makes a bike unavailable that was available, when the new status
      is `cancelled`; the cancelled booking itself stops blocking. */
  lemma CancelOnlyFreesRanges(bookings: seq<Booking>, id: string, now: Instant, bikeId: string, range: DateTimeRange)
    requires StatusUpdated(bookings, id, Cancelled, now).Some?
    ensures var after := StatusUpdated(bookings, id, Cancelled, now).value;
            && (CheckAvailability(bookings, bikeId, range) ==> CheckAvailability(after, bikeId, range))
            && !Blocks(after[IndexOf(bookings, id)], bikeId, range)
  {
    var after := StatusUpdated(bookings, id, Cancelled, now).value;
    var k := IndexOf(bookings, id);
    if CheckAvailability(bookings, bikeId, range) {
      forall i | 0 <= i < |after| ensures !Blocks(after[i], bikeId, range) {
        if i != k {
          assert after[i] == bookings[i];
        }
      }
    }
  }

  // ---------------------------------------------------------------- payments

  /** Outcome of a checkout: completed with gateway tokens, pending without. */
  function PaymentOutcome(details: Option<GatewayDetails>): (st: PaymentStatus)
    ensures st == PaymentCompleted <==> details.Some?
    ensures st != PaymentFailed
  {
    if details.Some? then PaymentCompleted else PaymentPending
  }

  /** The payment record `createPayment` appends. */
  function NewPayment(payments: seq<Payment>, bookingId: string, userId: string, amount: int,
                      details: Option<GatewayDetails>, now: Instant): (p: Payment)
    ensures p.id == PaymentId(|payments| + 1)
    ensures p.bookingId == bookingId && p.userId == userId && p.amount == amount
    ensures p.gateway == details && (p.status == PaymentCompleted <==> details.Some?)
    ensures p.createdAt == now && p.updatedAt == now
  {
    Payment(PaymentId(|payments| + 1), bookingId, userId, amount, details,
            PaymentOutcome(details), now, now)
  }

  /** What a payment does to its booking: links it, copies the payment's status, and sets the
      booking confirmed with gateway tokens and back to pending without, whatever it was. */
  function PaymentApplied(b: Booking, paymentId: string, details: Option<GatewayDetails>, now: Instant)
    : (r: Booking)
    ensures r.paymentId == Some(paymentId) && r.updatedAt == now
    ensures r.paymentStatus == PaymentOutcome(details)
    ensures r.status == (if details.Some? then Confirmed else Pending)
    ensures r == b.(paymentId := r.paymentId, paymentStatus := r.paymentStatus,
                    status := r.status, updatedAt := now)
  {
    b.(paymentId := Some(paymentId), paymentStatus := PaymentOutcome(details),
       status := if details.Some? then Confirmed else Pending, updatedAt := now)
  }

  /** A payment recorded without gateway tokens turns a confirmed (or completed) booking back
      into a pending one. */
  lemma PaymentWithoutDetailsDemotes(b: Booking, paymentId: string, now: Instant)
    requires b.status == Confirmed || b.status == Completed
    ensures PaymentApplied(b, paymentId, None, now).status == Pending
    ensures PaymentApplied(b, paymentId, None, now).paymentStatus == PaymentPending
  {
  }

  // ---------------------------------------------------------------- the store

  class BookingStore {
    var allBookings: seq<Booking>
    var allPayments: seq<Payment>

    /** The store as loaded: the saved collections, or the seed data. */
    constructor (bookings: seq<Booking>, payments: seq<Payment>)
      ensures allBookings == bookings && allPayments == payments
    {
      allBookings := bookings;
      allPayments := payments;
    }

    /** `createBooking`: appends one pending booking numbered after the current length and
        returns its id. */
    method CreateBooking(booking: BookingInput, now: Instant) returns (id: string)
      modifies this
      ensures id == BookingId(|old(allBookings)| + 1)
      ensures allBookings == old(allBookings) + [NewBooking(booking, id, now)]
      ensures allPayments == old(allPayments)
    {
      id := BookingId(|allBookings| + 1);
      var newBooking := NewBooking(booking, id, now);
      allBookings := allBookings + [newBooking];
    }

    /** `updateBookingStatus`: false and no change for an unknown id; otherwise the first
        booking with the id gets the status and a new update time. */
    method UpdateBookingStatus(bookingId: string, status: BookingStatus, now: Instant) returns (ok: bool)
      modifies this
      ensures var r := StatusUpdated(old(allBookings), bookingId, status, now);
              ok == r.Some? && allBookings == (if ok then r.value else old(allBookings))
      ensures allPayments == old(allPayments)
    {
      var bookingIndex := IndexOf(allBookings, bookingId);
      if bookingIndex == -1 {
        return false;
      }
      var updated := allBookings;
      updated := updated[bookingIndex := updated[bookingIndex].(status := status, updatedAt := now)];
      allBookings := updated;
      ok := true;
    }

    /** `cancelBooking`: exactly `updateBookingStatus(id, cancelled)`. */
    method CancelBooking(bookingId: string, now: Instant) returns (ok: bool)
      modifies this
      ensures var r := StatusUpdated(old(allBookings), bookingId, Cancelled, now);
              ok == r.Some? && allBookings == (if ok then r.value else old(allBookings))
      ensures allPayments == old(allPayments)
    {
      ok := UpdateBookingStatus(bookingId, Cancelled, now);
    }

    /** `createPayment`: nothing for an unknown booking; otherwise appends a payment numbered
        after the current payment count, links it to the first booking with the id, and
        returns the payment's id. */
    method CreatePayment(bookingId: string, userId: string, amount: int,
                         details: Option<GatewayDetails>, now: Instant) returns (r: Option<string>)
      modifies this
      ensures r.None? <==> forall i :: 0 <= i < |old(allBookings)| ==> old(allBookings)[i].id != bookingId
      ensures r.None? ==> allBookings == old(allBookings) && allPayments == old(allPayments)
      ensures r.Some? ==>
        var p := NewPayment(old(allPayments), bookingId, userId, amount, details, now);
        var k := IndexOf(old(allBookings), bookingId);
        && r.value == p.id
        && allPayments == old(allPayments) + [p]
        && allBookings == old(allBookings)[k := PaymentApplied(old(allBookings)[k], p.id, details, now)]
    {
      var booking := GetBookingById(allBookings, bookingId);
      if booking.None? {
        return None;
      }
      var newPayment := NewPayment(allPayments, bookingId, userId, amount, details, now);
      allPayments := allPayments + [newPayment];
      var bookingIndex := IndexOf(allBookings, bookingId);
      var updated := allBookings;
      updated := updated[bookingIndex := PaymentApplied(updated[bookingIndex], newPayment.id, details, now)];
      allBookings := updated;
      r := Some(newPayment.id);
    }
  }
}
