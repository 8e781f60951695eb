/**
 * The bike detail page: the rental duration and price computed whenever the
 * chosen dates change, the availability shown next to them, and "Book Now",
 * which turns the page's state into a new booking.
 */
module BikeDetailPage {
  import opened Wrappers
  import opened Types
  import BookingContext
  import AuthContext
  import BikeContext

  /** Division truncated toward zero, as the date library's whole-unit differences round:
      the quotient of the magnitudes, with the sign of `a`. Dafny's own `/` rounds down
      instead, which differs for negative `a`. */
  function Trunc(a: int, b: int): (q: int)
    requires b > 0
    ensures a >= 0 ==> q == a / b
    ensures a < 0 ==> q <= 0 && -q == (-a) / b
  {
    if a >= 0 then a / b else -((-a) / b)
  }

  /** `differenceInHours(to, from)`: whole hours elapsed. */
  function WholeHours(from: Instant, to: Instant): int {
    Trunc(to - from, HourMs)
  }

  /** `differenceInDays(to, from)`, on days of exactly 24 hours. */
  function WholeDays(from: Instant, to: Instant): int {
    Trunc(to - from, DayMs)
  }

  /** The charge for a rental of `hours` whole hours and `days` whole days: hourly below
      24 hours, otherwise daily for at least one day. The deposit is not part of it. */
  function RentalAmount(pricePerHour: int, pricePerDay: int, hours: int, days: int): int {
    if hours < 24 then pricePerHour * hours
    else pricePerDay * (if days > 1 then days else 1)
  }

  /** The charge the page computes for renting `bike` from `from` to `to`. */
  function RentalCost(bike: Bike, from: Instant, to: Instant): int {
    RentalAmount(bike.pricePerHour, bike.pricePerDay, WholeHours(from, to), WholeDays(from, to))
  }

  /** Reference reading of the price for a forward range: under a day it is the hourly rate
      times the whole hours, from a day on the daily rate times the whole days. */
  lemma RentalCostByLength(bike: Bike, from: Instant, to: Instant)
    requires from <= to
    ensures to - from < DayMs ==> RentalCost(bike, from, to) == bike.pricePerHour * ((to - from) / HourMs)
    ensures to - from >= DayMs ==> RentalCost(bike, from, to) == bike.pricePerDay * ((to - from) / DayMs)
  {
    var d := to - from;
    var h := WholeHours(from, to);
    var n := WholeDays(from, to);
    assert h == d / HourMs && n == d / DayMs;
    if d < DayMs {
      assert h < 24;
    } else {
      assert h >= 24 && n >= 1;
    }
  }

  /** 23 hours cost 23 hours at the hourly rate. */
  lemma TwentyThreeHours(bike: Bike, from: Instant)
    ensures RentalCost(bike, from, from + 23 * HourMs) == 23 * bike.pricePerHour
  {
    RentalCostByLength(bike, from, from + 23 * HourMs);
  }

  /** 24 hours cost one day at the daily rate. */
  lemma TwentyFourHours(bike: Bike, from: Instant)
    ensures RentalCost(bike, from, from + 24 * HourMs) == bike.pricePerDay
  {
    RentalCostByLength(bike, from, from + 24 * HourMs);
  }

  /** 48 hours cost two days at the daily rate. */
  lemma FortyEightHours(bike: Bike, from: Instant)
    ensures RentalCost(bike, from, from + 48 * HourMs) == 2 * bike.pricePerDay
  {
    RentalCostByLength(bike, from, from + 48 * HourMs);
  }

  /** An empty range costs nothing. */
  lemma EmptyRangeCostsNothing(bike: Bike, t: Instant)
    ensures RentalCost(bike, t, t) == 0
  {
    RentalCostByLength(bike, t, t);
  }

  /** Hours beyond whole days are not charged: anything from one day up to just under two
      days costs exactly one day. */
  lemma PartDaysAreFree(bike: Bike, from: Instant, to: Instant)
    requires DayMs <= to - from < 2 * DayMs
    ensures RentalCost(bike, from, to) == bike.pricePerDay
  {
    RentalCostByLength(bike, from, to);
  }

  /** With a daily rate below 23 hourly rates, one more hour makes the rental cheaper:
      the price is not monotone in the length of the rental. */
  lemma LongerCanBeCheaper(bike: Bike, from: Instant)
    requires bike.pricePerDay < 23 * bike.pricePerHour
    ensures RentalCost(bike, from, from + 24 * HourMs) < RentalCost(bike, from, from + 23 * HourMs)
  {
    TwentyThreeHours(bike, from);
    TwentyFourHours(bike, from);
  }

  /** The booking details "Book Now" sends to the store: who, which bike and its first
      picture, when, the hours as the duration, and the rental charge and the deposit as two separate amounts. */
  function BookingRequest(user: User, bike: Bike, shopName: string, from: Instant, to: Instant,
                          hours: int, totalAmount: int): (r: BookingInput)
    ensures r.userId == user.id && r.userName == user.name && r.userPhone == user.phone
    ensures r.userEmail == user.email
    ensures r.bikeId == bike.id && r.bikeName == bike.name && r.shopId == bike.shopId
    ensures r.bikeImage == if |bike.images| > 0 then bike.images[0] else ""
    ensures r.shopName == shopName && r.startDate == from && r.endDate == to
    ensures r.duration == hours && r.totalAmount == totalAmount && r.deposit == bike.deposit
    ensures r.paymentId.None?
  {
    BookingInput(user.id, user.name, user.phone, user.email, bike.id, bike.name,
                 if |bike.images| > 0 then bike.images[0] else "",
                 bike.shopId, shopName, from, to, hours, totalAmount, bike.deposit, None)
  }

  /** The total shown on the page and charged at payment: rental charge plus deposit. */
  function GrandTotal(totalAmount: int, deposit: int): int {
    totalAmount + deposit
  }

  /** What "Book Now" did. */
  datatype BookNowOutcome = RedirectToLogin | NothingToBook | Booked(bookingId: string)

  /** The page's own state: the duration and amount shown and whether the bike is free. */
  class BikeDetailView {
    var hours: int
    var days: int
    var totalAmount: int
    var isAvailable: bool

    constructor ()
      ensures hours == 24 && days == 1 && totalAmount == 0 && isAvailable
    {
      hours := 24;
      days := 1;
      totalAmount := 0;
      isAvailable := true;
    }

    /** The effect run when the dates or the bike change: with a bike and both dates it
        recomputes the duration, the charge and the availability; otherwise nothing changes. */
    method DatesChanged(selectedBike: Option<Bike>, from: Option<Instant>, to: Option<Instant>,
                        bookings: seq<Booking>)
      modifies this
      ensures if selectedBike.Some? && from.Some? && to.Some? then
                && hours == WholeHours(from.value, to.value)
                && days == (if WholeDays(from.value, to.value) > 0 then WholeDays(from.value, to.value) else 1)
                && totalAmount == RentalCost(selectedBike.value, from.value, to.value)
                && isAvailable == BookingContext.CheckAvailability(bookings, selectedBike.value.id,
                                    DateTimeRange(from.value, to.value))
              else
                && hours == old(hours) && days == old(days) && totalAmount == old(totalAmount)
                && isAvailable == old(isAvailable)
    {
      if selectedBike.Some? && from.Some? && to.Some? {
        var bike := selectedBike.value;
        var h := WholeHours(from.value, to.value);
        var d := WholeDays(from.value, to.value);
        hours := h;
        days := if d > 0 then d else 1;
        var totalCost;
        if h < 24 {
          totalCost := bike.pricePerHour * h;
        } else {
          totalCost := bike.pricePerDay * (if 1 < d then d else 1);
        }
        totalAmount := totalCost;
        isAvailable := BookingContext.CheckAvailability(bookings, bike.id, DateTimeRange(from.value, to.value));
      }
    }

    /** `handleBookNow`: a visitor who is not signed in is sent to the login page; without a
        bike, both dates and a user nothing happens; otherwise a booking is created from the
        page's state. The availability shown on the page is not consulted. */
    method BookNow(session: AuthContext.AuthSession, catalogue: BikeContext.BikeCatalogue,
                   store: BookingContext.BookingStore, from: Option<Instant>, to: Option<Instant>,
                   now: Instant)
      returns (outcome: BookNowOutcome)
      modifies store
      ensures !session.isLoggedIn ==> outcome == RedirectToLogin
      ensures outcome.Booked? <==>
        && session.isLoggedIn && session.currentUser.Some? && catalogue.selectedBike.Some?
        && from.Some? && to.Some?
      ensures outcome.Booked? ==>
        var bike := catalogue.selectedBike.value;
        var request := BookingRequest(session.currentUser.value, bike,
                         BikeContext.ShopNameById(catalogue.mockShops, bike.shopId),
                         from.value, to.value, hours, totalAmount);
        && outcome.bookingId == BookingContext.BookingId(|old(store.allBookings)| + 1)
        && store.allBookings == old(store.allBookings) + [BookingContext.NewBooking(request, outcome.bookingId, now)]
      ensures !outcome.Booked? ==> store.allBookings == old(store.allBookings)
      ensures store.allPayments == old(store.allPayments)
    {
      if !session.isLoggedIn {
        return RedirectToLogin;
      }
      if catalogue.selectedBike.None? || from.None? || to.None? || session.currentUser.None? {
        return NothingToBook;
      }
      var bike := catalogue.selectedBike.value;
      var bookingData := BookingRequest(session.currentUser.value, bike,
                           BikeContext.ShopNameById(catalogue.mockShops, bike.shopId),
                           from.value, to.value, hours, totalAmount);
      var bookingId := store.CreateBooking(bookingData, now);
      return Booked(bookingId);
    }
  }

  /** A booking made from the page after the dates were chosen records the hours of the range,
      the rental charge without the deposit, and the bike's deposit on its own; the grand total
      adds the two. */
  lemma BookedAmounts(user: User, bike: Bike, shopName: string, from: Instant, to: Instant,
                      id: string, now: Instant)
    ensures var b := BookingContext.NewBooking(
              BookingRequest(user, bike, shopName, from, to, WholeHours(from, to), RentalCost(bike, from, to)),
              id, now);
            && b.duration == WholeHours(from, to)
            && b.totalAmount == RentalCost(bike, from, to)
            && b.deposit == bike.deposit
            && GrandTotal(b.totalAmount, b.deposit) == RentalCost(bike, from, to) + bike.deposit
            && b.status == Pending && b.paymentStatus == PaymentPending
  {
  }
}
