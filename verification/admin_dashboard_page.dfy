/**
 * The administrators' dashboard: the revenue, bookings, bikes and shops cards
 * and the monthly bookings and revenue charts of the current year.
 */
module AdminDashboardPage {
  import opened Types
  import opened Seqs
  import opened Tally
  import AdminAnalyticsPage
  import AdminBookingsPage

  /** The four cards' figures. */
  datatype Cards = Cards(
    totalRevenue: int, confirmedBookings: nat, pendingBookings: nat,
    availableBikes: nat, totalBikes: nat, activeShops: nat, totalShops: nat)

  function IsAvailable(b: Bike): bool { b.isAvailable }

  function IsActive(s: Shop): bool { s.isActive }

  /** The cards: the paid revenue and the confirmed and pending counts over all bookings, the
      available and all bikes, the active and all shops. */
  function DashboardCards(all: seq<Booking>, bikes: seq<Bike>, shops: seq<Shop>): (c: Cards)
    ensures c.totalRevenue == Sum(all, AdminAnalyticsPage.PaidAmount)
    ensures c.confirmedBookings == AdminBookingsPage.StatusCount(all, Confirmed)
    ensures c.pendingBookings == AdminBookingsPage.StatusCount(all, Pending)
    ensures c.confirmedBookings + c.pendingBookings
            + AdminBookingsPage.StatusCount(all, Cancelled) + AdminBookingsPage.StatusCount(all, Completed) == |all|
    ensures c.availableBikes == |Filter(bikes, IsAvailable)| && c.totalBikes == |bikes|
    ensures c.activeShops == |Filter(shops, IsActive)| && c.totalShops == |shops|
    ensures c.availableBikes == c.totalBikes <==> forall i :: 0 <= i < |bikes| ==> bikes[i].isAvailable
    ensures c.availableBikes == 0 <==> forall i :: 0 <= i < |bikes| ==> !bikes[i].isAvailable
    ensures c.activeShops == c.totalShops <==> forall i :: 0 <= i < |shops| ==> shops[i].isActive
    ensures c.activeShops == 0 <==> forall i :: 0 <= i < |shops| ==> !shops[i].isActive
  {
    AdminAnalyticsPage.RevenueCountsPaidOnly(all);
    AdminBookingsPage.StatusCountsSum(all);
    CountAllOrNone(bikes, IsAvailable);
    CountAllOrNone(shops, IsActive);
    Cards(AdminAnalyticsPage.TotalRevenue(all),
          AdminBookingsPage.StatusCount(all, Confirmed), AdminBookingsPage.StatusCount(all, Pending),
          Count(bikes, IsAvailable), |bikes|, Count(shops, IsActive), |shops|)
  }

  /** The monthly revenue and the revenue card disagree on unpaid bookings: one created this
      year adds its amount to its month's revenue but nothing to the card. */
  lemma UnpaidInMonthlyRevenueOnly(all: seq<Booking>, b: Booking, year: int, yearOf: Instant -> int,
                                   monthOf: Instant -> int)
    requires forall t :: 0 <= monthOf(t) < 12
    requires !AdminAnalyticsPage.IsPaid(b) && yearOf(b.createdAt) == year
    ensures var m := monthOf(b.createdAt);
            MonthRevenue(all + [b], year, yearOf, monthOf)[m]
              == MonthRevenue(all, year, yearOf, monthOf)[m] + b.totalAmount
    ensures AdminAnalyticsPage.TotalRevenue(all + [b]) == AdminAnalyticsPage.TotalRevenue(all)
  {
    assert (all + [b])[..|all|] == all;
    FilterSumSnoc(all, b, AdminAnalyticsPage.IsPaid, TotalAmount);
  }

  /** The month labels as the dashboard writes them: July is "Tul" and September "Spet". */
  const MonthLabelsAsWritten: seq<string> := ["Jan", "Feb", "Mar", "Apr", "May", "Jun",
                                              "Tul", "Aug", "Spet", "Oct", "Nov", "Dec"]

  /** The dashboard's labels are not the months' abbreviations: two are misspelt, and they
      differ from the analytics page's labels in exactly those two months. */
  lemma LabelsAsWrittenMisspelt()
    ensures !AbbreviatesMonths(MonthLabelsAsWritten)
    ensures forall m :: 0 <= m < 12 ==> (MonthLabelsAsWritten[m] != MonthNames[m] <==> m == 6 || m == 8)
  {
    assert MonthLabelsAsWritten[6][0] == 'T' && FullMonthNames[6][..3][0] == 'J';
    assert MonthNames[6][0] == 'J' && |MonthLabelsAsWritten[8]| != |MonthNames[8]|;
  }
}
