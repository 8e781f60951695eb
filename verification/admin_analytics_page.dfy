/**
 * The administrators' analytics page: the bookings of the selected time range
 * and shop, the revenue, average value and completion rate cards, revenue by
 * shop, the five most booked bikes, the revenue time series, the status
 * distribution, and the monthly charts of the current year.
 */
module AdminAnalyticsPage {
  import opened Types
  import opened Seqs
  import opened Tally
  import Text
  import AdminBookingsPage

  // ---------------------------------------------------------------- filtered bookings

  /** The time-range select read as a number of days: "7d", "30d", "3m" and "1y" are 7, 30, 90
      and 365 days; any other value falls back to 30. */
  function RangeDays(timeRange: string): nat {
    if timeRange == "7d" then 7
    else if timeRange == "30d" then 30
    else if timeRange == "3m" then 90
    else if timeRange == "1y" then 365
    else 30
  }

  /** The earliest creation instant the range admits. */
  function RangeStart(now: Instant, timeRange: string): Instant {
    now - RangeDays(timeRange) * DayMs
  }

  /** The shop select restricts the bookings unless it is empty or "all". */
  predicate ShopRestricted(selectedShop: string) {
    selectedShop != "" && selectedShop != "all"
  }

  /** Created at or after `start`. */
  function CreatedSince(start: Instant): Booking -> bool {
    (b: Booking) => b.createdAt >= start
  }

  /** Made at the shop with id `shopId`. */
  function AtShop(shopId: string): Booking -> bool {
    (b: Booking) => b.shopId == shopId
  }

  /** The filter's test: created in the range, and at the selected shop if one is selected. */
  predicate Admitted(b: Booking, start: Instant, selectedShop: string) {
    b.createdAt >= start && (ShopRestricted(selectedShop) ==> b.shopId == selectedShop)
  }

  /** `getFilteredBookings`: the bookings created no earlier than `now` minus the range, at the
      selected shop unless "all" is selected, in store order; none without bookings. */
  function FilteredBookings(all: seq<Booking>, now: Instant, timeRange: string, selectedShop: string)
    : (r: seq<Booking>)
    ensures IsSubsequence(r, all)
    ensures forall i :: 0 <= i < |r| ==> Admitted(r[i], RangeStart(now, timeRange), selectedShop)
    ensures forall i :: 0 <= i < |all| && Admitted(all[i], RangeStart(now, timeRange), selectedShop) ==> all[i] in r
  {
    if |all| == 0 then []
    else
      var start := RangeStart(now, timeRange);
      var p := (b: Booking) => Admitted(b, start, selectedShop);
      FilterIsSubsequence(all, p);
      Filter(all, p)
  }

  /** A shorter range keeps exactly the bookings of a longer one that were created since its
      own start: the ranges nest. */
  lemma RangesNest(all: seq<Booking>, now: Instant, narrow: string, wide: string, selectedShop: string)
    requires RangeDays(narrow) <= RangeDays(wide)
    ensures FilteredBookings(all, now, narrow, selectedShop)
            == Filter(FilteredBookings(all, now, wide, selectedShop), CreatedSince(RangeStart(now, narrow)))
  {
    if |all| > 0 {
      var pw := (b: Booking) => Admitted(b, RangeStart(now, wide), selectedShop);
      var pn := (b: Booking) => Admitted(b, RangeStart(now, narrow), selectedShop);
      var since := CreatedSince(RangeStart(now, narrow));
      FilterFilter(all, pw, since);
      FilterSamePredicate(all, And(pw, since), pn);
    }
  }

  /** Selecting a shop keeps exactly the bookings of that shop among those shown for "all". */
  lemma ShopSelectionNarrows(all: seq<Booking>, now: Instant, timeRange: string, shopId: string)
    requires ShopRestricted(shopId)
    ensures FilteredBookings(all, now, timeRange, shopId)
            == Filter(FilteredBookings(all, now, timeRange, "all"), AtShop(shopId))
  {
    if |all| > 0 {
      var start := RangeStart(now, timeRange);
      var pa := (b: Booking) => Admitted(b, start, "all");
      var ps := (b: Booking) => Admitted(b, start, shopId);
      FilterFilter(all, pa, AtShop(shopId));
      FilterSamePredicate(all, And(pa, AtShop(shopId)), ps);
    }
  }

  // ---------------------------------------------------------------- cards

  /** Paid: the payment status is "completed". */
  predicate IsPaid(b: Booking) {
    b.paymentStatus == PaymentCompleted
  }

  /** `totalRevenue`: the amounts of the paid bookings among the filtered ones. */
  function TotalRevenue(filtered: seq<Booking>): int {
    Sum(Filter(filtered, IsPaid), TotalAmount)
  }

  /** What a booking contributes to the revenue: its amount when paid, nothing otherwise. */
  function PaidAmount(b: Booking): int {
    if IsPaid(b) then b.totalAmount else 0
  }

  /** The revenue is the sum over all filtered bookings of what each contributes: unpaid
      bookings add nothing, paid ones their amount. */
  lemma {:induction false} RevenueCountsPaidOnly(filtered: seq<Booking>)
    ensures TotalRevenue(filtered) == Sum(filtered, PaidAmount)
    decreases |filtered|
  {
    if |filtered| > 0 {
      RevenueCountsPaidOnly(filtered[1..]);
    }
  }

  /** `Math.round(a / n)` for a positive `n`: the integer nearest to a / n, halves rounded
      up; `(2a + n) / (2n)` in floor division. */
  function RoundDiv(a: int, n: int): (r: int)
    requires n > 0
    ensures 2 * r * n - n <= 2 * a < 2 * r * n + n
  {
    var q := (2 * a + n) / (2 * n);
    var m := (2 * a + n) % (2 * n);
    assert 2 * a + n == 2 * n * q + m && 0 <= m < 2 * n;
    assert 2 * q * n == 2 * n * q;
    q
  }

  /** Rounding is determined: only one integer is within a half of a / n. */
  lemma RoundDivUnique(a: int, n: int, r: int)
    requires n > 0 && 2 * r * n - n <= 2 * a < 2 * r * n + n
    ensures r == RoundDiv(a, n)
  {
    var q := RoundDiv(a, n);
    assert (r - q) * n == r * n - q * n;
    assert (q - r) * n == q * n - r * n;
    FactorBelowOne(r - q, n);
    FactorBelowOne(q - r, n);
  }

  lemma FactorBelowOne(x: int, n: int)
    requires n > 0 && x * n < n
    ensures x < 1
  {
  }

  lemma FactorAboveMinusOne(x: int, n: int)
    requires n > 0 && x * n > -n
    ensures x > -1
  {
  }

  /** `avgBookingValue`: the revenue divided by the number of filtered bookings, paid or not,
      rounded to the nearest integer; 0 without bookings. */
  function AvgBookingValue(filtered: seq<Booking>): (r: int)
    ensures |filtered| == 0 ==> r == 0
    ensures |filtered| > 0 ==>
              2 * r * |filtered| - |filtered| <= 2 * TotalRevenue(filtered) < 2 * r * |filtered| + |filtered|
  {
    if |filtered| > 0 then RoundDiv(TotalRevenue(filtered), |filtered|) else 0
  }

  function IsCompleted(b: Booking): bool { b.status == Completed }

  /** `completionRate`: the share of completed bookings among the filtered ones in percent,
      rounded to the nearest integer, so from 0 to 100; 0 without bookings. */
  function CompletionRate(filtered: seq<Booking>): (r: int)
    ensures 0 <= r <= 100
    ensures |filtered| == 0 ==> r == 0
    ensures |filtered| > 0 ==>
              var c := Count(filtered, IsCompleted);
              2 * r * |filtered| - |filtered| <= 200 * c < 2 * r * |filtered| + |filtered|
  {
    if |filtered| > 0 then
      var n := |filtered|;
      var c := Count(filtered, IsCompleted);
      var r := RoundDiv(100 * c, n);
      RateBounds(c, n, r);
      r
    else 0
  }

  /** A rounded percentage of a part of a whole lies from 0 to 100. */
  lemma RateBounds(c: nat, n: nat, r: int)
    requires 0 < n && c <= n
    requires 2 * r * n - n <= 200 * c < 2 * r * n + n
    ensures 0 <= r <= 100
  {
    assert (r - 100) * n == r * n - 100 * n;
    assert (r + 1) * n == r * n + n;
    FactorBelowOne(r - 100, n);
    FactorAboveMinusOne(r, n);
  }

  /** The completion rate is the percentage the completed bookings make of the filtered ones:
      100 when all are completed, 0 when none is. */
  lemma CompletionRateExtremes(filtered: seq<Booking>)
    requires |filtered| > 0
    ensures Count(filtered, IsCompleted) == |filtered| ==> CompletionRate(filtered) == 100
    ensures Count(filtered, IsCompleted) == 0 ==> CompletionRate(filtered) == 0
  {
    var n := |filtered|;
    var c := Count(filtered, IsCompleted);
    if c == n {
      RoundDivUnique(100 * c, n, 100);
    }
    if c == 0 {
      RoundDivUnique(0, n, 0);
    }
  }

  // ---------------------------------------------------------------- revenue by shop

  function ShopIdOf(b: Booking): string { b.shopId }

  /** The chart's name for a shop id: the shop's name, or "Unknown" when no shop has it. */
  function ShopLabel(shops: seq<Shop>, id: string): string {
    var s := Find(shops, (sh: Shop) => sh.id == id);
    if s.Some? then s.value.name else "Unknown"
  }

  /** The entry renamed from a shop id to the shop's label. */
  function ShopEntry(shops: seq<Shop>): Entry -> Entry {
    (e: Entry) => Entry(ShopLabel(shops, e.name), e.value)
  }

  /** What `revenueByShop` returns: nothing without shops; otherwise the paid revenue of every
      shop id that has some, labelled with the shop's name, largest first, and shops with
      equal revenue in the order of their first paid booking. */
  function RevenueByShopOf(shops: seq<Shop>, filtered: seq<Booking>): (r: seq<Entry>)
    ensures SortedDescendingBy(r, EntryValue)
    ensures |shops| == 0 ==> r == []
    ensures |shops| > 0 ==>
      forall k :: Filter(r, KeyIs(EntryValue, k))
                    == Filter(Map(Grouped(Filter(filtered, IsPaid), ShopIdOf, TotalAmount), ShopEntry(shops)), KeyIs(EntryValue, k))
  {
    if |shops| == 0 then []
    else SortDescendingBy(Map(Grouped(Filter(filtered, IsPaid), ShopIdOf, TotalAmount), ShopEntry(shops)),
                          EntryValue)
  }

  /** `revenueByShop`: the `forEach` that adds each paid booking's amount under its shop id,
      then the entries renamed and sorted. */
  method RevenueByShop(shops: seq<Shop>, filtered: seq<Booking>) returns (r: seq<Entry>)
    ensures r == RevenueByShopOf(shops, filtered)
  {
    if |shops| == 0 {
      return [];
    }
    var shopRevenue := Accumulate(Filter(filtered, IsPaid), ShopIdOf, TotalAmount);
    r := SortDescendingBy(Map(shopRevenue, ShopEntry(shops)), EntryValue);
  }

  /** With shops listed, the chart's values add up to the revenue card: every paid booking
      is counted under exactly one shop. */
  lemma RevenueByShopSumsToTotal(shops: seq<Shop>, filtered: seq<Booking>)
    requires |shops| > 0
    ensures Sum(RevenueByShopOf(shops, filtered), EntryValue) == TotalRevenue(filtered)
  {
    var paid := Filter(filtered, IsPaid);
    var g := Grouped(paid, ShopIdOf, TotalAmount);
    var named := Map(g, ShopEntry(shops));
    GroupedSum(paid, ShopIdOf, TotalAmount);
    RenamedSum(g, ShopEntry(shops));
    SumPermutation(named, SortDescendingBy(named, EntryValue), EntryValue);
  }

  /** With shops listed, the chart has one entry per shop id with paid bookings, carrying the
      shop's label and the shop's paid revenue, and nothing else. */
  lemma RevenueByShopOnePerShop(shops: seq<Shop>, filtered: seq<Booking>)
    requires |shops| > 0
    ensures var ids := Distinct(Map(Filter(filtered, IsPaid), ShopIdOf));
            && |RevenueByShopOf(shops, filtered)| == |ids|
            && (forall i :: 0 <= i < |filtered| && IsPaid(filtered[i]) ==>
                  ShopRevenueEntry(shops, filtered, filtered[i].shopId) in RevenueByShopOf(shops, filtered))
            && (forall j :: 0 <= j < |RevenueByShopOf(shops, filtered)| ==>
                  exists k :: k in ids && RevenueByShopOf(shops, filtered)[j] == ShopRevenueEntry(shops, filtered, k))
  {
    ShopEntries(shops, filtered, RevenueByShopOf(shops, filtered));
  }

  /** The entries of any reordering of the renamed shop totals. */
  lemma ShopEntries(shops: seq<Shop>, filtered: seq<Booking>, r: seq<Entry>)
    requires multiset(r) == multiset(Map(Grouped(Filter(filtered, IsPaid), ShopIdOf, TotalAmount), ShopEntry(shops)))
    ensures var ids := Distinct(Map(Filter(filtered, IsPaid), ShopIdOf));
            && |r| == |ids|
            && (forall i :: 0 <= i < |filtered| && IsPaid(filtered[i]) ==> ShopRevenueEntry(shops, filtered, filtered[i].shopId) in r)
            && (forall j :: 0 <= j < |r| ==> exists k :: k in ids && r[j] == ShopRevenueEntry(shops, filtered, k))
  {
    var paid := Filter(filtered, IsPaid);
    RenamedGroupedMembers(paid, ShopIdOf, TotalAmount, ShopEntry(shops), r);
    PaidBookingsListed(shops, filtered, paid, r);
  }

  /** Every paid booking's shop has its entry among the renamed totals. */
  lemma PaidBookingsListed(shops: seq<Shop>, filtered: seq<Booking>, paid: seq<Booking>, r: seq<Entry>)
    requires paid == Filter(filtered, IsPaid)
    requires forall i :: 0 <= i < |paid| ==>
               ShopEntry(shops)(Entry(ShopIdOf(paid[i]), KeyTotal(paid, ShopIdOf, TotalAmount, ShopIdOf(paid[i])))) in r
    ensures forall i :: 0 <= i < |filtered| && IsPaid(filtered[i]) ==> ShopRevenueEntry(shops, filtered, filtered[i].shopId) in r
  {
    forall i | 0 <= i < |filtered| && IsPaid(filtered[i])
      ensures ShopRevenueEntry(shops, filtered, filtered[i].shopId) in r
    {
      var p := PaidIndex(filtered, paid, i);
      RenamedIsRevenueEntry(shops, filtered, paid, ShopIdOf(paid[p]));
    }
  }

  /** Where a paid booking sits among the paid bookings. */
  lemma PaidIndex(filtered: seq<Booking>, paid: seq<Booking>, i: nat) returns (p: nat)
    requires paid == Filter(filtered, IsPaid) && i < |filtered| && IsPaid(filtered[i])
    ensures p < |paid| && paid[p] == filtered[i]
  {
    assert filtered[i] in paid;
    p :| p < |paid| && paid[p] == filtered[i];
  }

  /** The renamed total of a shop id is that id's revenue entry. */
  lemma RenamedIsRevenueEntry(shops: seq<Shop>, filtered: seq<Booking>, paid: seq<Booking>, k: string)
    requires paid == Filter(filtered, IsPaid)
    ensures ShopEntry(shops)(Entry(k, KeyTotal(paid, ShopIdOf, TotalAmount, k))) == ShopRevenueEntry(shops, filtered, k)
  {
  }

  /** The entry for shop id `k`: its label and the paid revenue of its bookings. */
  function ShopRevenueEntry(shops: seq<Shop>, filtered: seq<Booking>, k: string): Entry {
    Entry(ShopLabel(shops, k), KeyTotal(Filter(filtered, IsPaid), ShopIdOf, TotalAmount, k))
  }

  // ---------------------------------------------------------------- bookings by bike

  function BikeIdOf(b: Booking): string { b.bikeId }

  /** The chart's name for a bike id: the bike's name, or "Unknown" when no bike has it. */
  function BikeLabel(bikes: seq<Bike>, id: string): string {
    var b := Find(bikes, (bk: Bike) => bk.id == id);
    if b.Some? then b.value.name else "Unknown"
  }

  function BikeEntry(bikes: seq<Bike>): Entry -> Entry {
    (e: Entry) => Entry(BikeLabel(bikes, e.name), e.value)
  }

  /** The booking counts of every booked bike, labelled and sorted, largest first, before the
      slice; bikes with equal counts stay in the order of their first booking. */
  function BikeRanking(bikes: seq<Bike>, filtered: seq<Booking>): (r: seq<Entry>)
    ensures SortedDescendingBy(r, EntryValue)
    ensures forall k :: Filter(r, KeyIs(EntryValue, k))
                          == Filter(Map(Grouped(filtered, BikeIdOf, One), BikeEntry(bikes)), KeyIs(EntryValue, k))
  {
    SortDescendingBy(Map(Grouped(filtered, BikeIdOf, One), BikeEntry(bikes)), EntryValue)
  }

  /** What `bookingsByBike` returns: nothing without filtered bookings; otherwise the first
      five of the ranking, so that of the bikes with equal counts those booked first are
      the ones kept. */
  function BookingsByBikeOf(bikes: seq<Bike>, filtered: seq<Booking>): (r: seq<Entry>)
    ensures |r| <= 5
    ensures SortedDescendingBy(r, EntryValue)
    ensures |filtered| == 0 ==> r == []
    ensures forall k :: Filter(r, KeyIs(EntryValue, k))
                          <= Filter(Map(Grouped(filtered, BikeIdOf, One), BikeEntry(bikes)), KeyIs(EntryValue, k))
  {
    if |filtered| == 0 then []
    else
      var ranking := BikeRanking(bikes, filtered);
      assert forall k :: Filter(Take(ranking, 5), KeyIs(EntryValue, k)) <= Filter(ranking, KeyIs(EntryValue, k)) by {
        forall k ensures Filter(Take(ranking, 5), KeyIs(EntryValue, k)) <= Filter(ranking, KeyIs(EntryValue, k)) {
          TakeFilterIsPrefix(ranking, 5, KeyIs(EntryValue, k));
        }
      }
      Take(ranking, 5)
  }

  /** `bookingsByBike`: the `forEach` that counts the bookings under their bike id, then the
      entries renamed, sorted and cut to five. */
  method BookingsByBike(bikes: seq<Bike>, filtered: seq<Booking>) returns (r: seq<Entry>)
    ensures r == BookingsByBikeOf(bikes, filtered)
  {
    if |filtered| == 0 {
      return [];
    }
    var bikeBookings := Accumulate(filtered, BikeIdOf, One);
    r := Take(SortDescendingBy(Map(bikeBookings, BikeEntry(bikes)), EntryValue), 5);
  }

  /** The number of filtered bookings of bike `k`. */
  function BikeCount(filtered: seq<Booking>, k: string): nat {
    Count(filtered, HasKey(BikeIdOf, k))
  }

  /** Each ranked entry is a booked bike with its number of bookings, and every booked bike is
      ranked once; the counts add up to the number of filtered bookings. */
  lemma BikeRankingCounts(bikes: seq<Bike>, filtered: seq<Booking>)
    ensures var ids := Distinct(Map(filtered, BikeIdOf));
            && |BikeRanking(bikes, filtered)| == |ids|
            && (forall j :: 0 <= j < |BikeRanking(bikes, filtered)| ==>
                  exists k :: k in ids && BikeRanking(bikes, filtered)[j] == Entry(BikeLabel(bikes, k), BikeCount(filtered, k)))
            && Sum(BikeRanking(bikes, filtered), EntryValue) == |filtered|
  {
    BikeEntries(bikes, filtered, BikeRanking(bikes, filtered));
    BikeRankingSum(bikes, filtered);
  }

  /** The entries of any reordering of the renamed bike counts. */
  lemma BikeEntries(bikes: seq<Bike>, filtered: seq<Booking>, r: seq<Entry>)
    requires multiset(r) == multiset(Map(Grouped(filtered, BikeIdOf, One), BikeEntry(bikes)))
    ensures |r| == |Distinct(Map(filtered, BikeIdOf))|
    ensures forall j :: 0 <= j < |r| ==>
              exists k :: k in Distinct(Map(filtered, BikeIdOf)) && r[j] == Entry(BikeLabel(bikes, k), BikeCount(filtered, k))
  {
    RenamedGroupedMembers(filtered, BikeIdOf, One, BikeEntry(bikes), r);
    forall k ensures KeyTotal(filtered, BikeIdOf, One, k) == BikeCount(filtered, k) {
      SumOfOnes(Filter(filtered, HasKey(BikeIdOf, k)));
    }
  }

  /** Every booking counts once in the ranking. */
  lemma BikeRankingSum(bikes: seq<Bike>, filtered: seq<Booking>)
    ensures Sum(BikeRanking(bikes, filtered), EntryValue) == |filtered|
  {
    var g := Grouped(filtered, BikeIdOf, One);
    var named := Map(g, BikeEntry(bikes));
    GroupedSum(filtered, BikeIdOf, One);
    SumOfOnes(filtered);
    RenamedSum(g, BikeEntry(bikes));
    SumPermutation(named, BikeRanking(bikes, filtered), EntryValue);
  }

  /** The five shown are the most booked: no bike cut off has more bookings than one shown,
      and with five or fewer booked bikes nothing is cut off. */
  lemma BookingsByBikeIsTop(bikes: seq<Bike>, filtered: seq<Booking>)
    requires |filtered| > 0
    ensures var ranking := BikeRanking(bikes, filtered);
            var shown := BookingsByBikeOf(bikes, filtered);
            && shown == ranking[..|shown|]
            && (forall i, j :: 0 <= i < |shown| <= j < |ranking| ==> ranking[i].value >= ranking[j].value)
            && (|Distinct(Map(filtered, BikeIdOf))| <= 5 ==> shown == ranking)
  {
    var ranking := BikeRanking(bikes, filtered);
    TopOfDescending(ranking, EntryValue, 5);
    BikeRankingCounts(bikes, filtered);
  }

  // ---------------------------------------------------------------- revenue time series

  /** The time series' key for a booking: the short month name on the calendar `monthName`
      reads for the "1y" range, otherwise month and day of month as "M/D". */
  function SeriesKey(timeRange: string, monthName: Instant -> string, monthOf: Instant -> int,
                     dateOf: Instant -> int): Booking -> string
    requires forall t :: 0 <= monthOf(t) && 1 <= dateOf(t)
  {
    (b: Booking) =>
      if timeRange == "1y" then monthName(b.createdAt)
      else Text.NatToString(monthOf(b.createdAt) + 1) + "/" + Text.NatToString(dateOf(b.createdAt))
  }

  /** `getTimeSeriesData`: the `forEach` that adds each paid booking's amount under its key,
      read back as `{ date, amount }` points. One point per key in order of first appearance,
      and the amounts add up to the revenue card. */
  method TimeSeries(filtered: seq<Booking>, timeRange: string, monthName: Instant -> string,
                    monthOf: Instant -> int, dateOf: Instant -> int)
    returns (points: seq<Entry>)
    requires forall t :: 0 <= monthOf(t) && 1 <= dateOf(t)
    ensures points == Grouped(Filter(filtered, IsPaid), SeriesKey(timeRange, monthName, monthOf, dateOf), TotalAmount)
    ensures forall i, j :: 0 <= i < j < |points| ==> points[i].name != points[j].name
    ensures Sum(points, EntryValue) == TotalRevenue(filtered)
  {
    var key := SeriesKey(timeRange, monthName, monthOf, dateOf);
    points := Accumulate(Filter(filtered, IsPaid), key, TotalAmount);
    GroupedKeysOnce(Filter(filtered, IsPaid), key, TotalAmount);
  }

  // ---------------------------------------------------------------- status distribution

  /** One slice of the status pie chart. */
  datatype Slice = Slice(name: string, value: int, color: string)

  function SliceValue(s: Slice): int { s.value }

  /** The pie chart's slices, in the order the page lists them. */
  function StatusSlices(filtered: seq<Booking>): seq<Slice> {
    [ Slice("Completed", AdminBookingsPage.StatusCount(filtered, Completed), "#10B981"),
      Slice("Confirmed", AdminBookingsPage.StatusCount(filtered, Confirmed), "#3B82F6"),
      Slice("Pending", AdminBookingsPage.StatusCount(filtered, Pending), "#F59E0B"),
      Slice("Cancelled", AdminBookingsPage.StatusCount(filtered, Cancelled), "#EF4444") ]
  }

  /** `getStatusDistribution`: the `forEach` that adds one to the counter of each booking's
      status. Each slice holds the number of filtered bookings with its status, and the four
      add up to the number of filtered bookings. */
  method StatusDistribution(filtered: seq<Booking>) returns (r: seq<Slice>)
    ensures r == StatusSlices(filtered)
    ensures Sum(r, SliceValue) == |filtered|
  {
    var pending, confirmed, completed, cancelled := 0, 0, 0, 0;
    var i := 0;
    while i < |filtered|
      invariant 0 <= i <= |filtered|
      invariant pending == AdminBookingsPage.StatusCount(filtered[..i], Pending)
      invariant confirmed == AdminBookingsPage.StatusCount(filtered[..i], Confirmed)
      invariant completed == AdminBookingsPage.StatusCount(filtered[..i], Completed)
      invariant cancelled == AdminBookingsPage.StatusCount(filtered[..i], Cancelled)
    {
      StatusCountStep(filtered, i);
      match filtered[i].status {
        case Pending => pending := pending + 1;
        case Confirmed => confirmed := confirmed + 1;
        case Completed => completed := completed + 1;
        case Cancelled => cancelled := cancelled + 1;
      }
      i := i + 1;
    }
    assert filtered[..i] == filtered;
    r := [ Slice("Completed", completed, "#10B981"), Slice("Confirmed", confirmed, "#3B82F6"),
           Slice("Pending", pending, "#F59E0B"), Slice("Cancelled", cancelled, "#EF4444") ];
    StatusSlicesSum(filtered);
  }

  /** Every booking has one of the four statuses, so the slices add up to the number of
      filtered bookings. */
  lemma StatusSlicesSum(filtered: seq<Booking>)
    ensures Sum(StatusSlices(filtered), SliceValue) == |filtered|
  {
    var r := StatusSlices(filtered);
    assert Sum(r[3..], SliceValue) == r[3].value by {
      assert r[3..][1..] == [];
    }
    assert Sum(r[2..], SliceValue) == r[2].value + Sum(r[3..], SliceValue) by {
      assert r[2..][1..] == r[3..];
    }
    assert Sum(r[1..], SliceValue) == r[1].value + Sum(r[2..], SliceValue) by {
      assert r[1..][1..] == r[2..];
    }
    AdminBookingsPage.StatusCountsSum(filtered);
  }

  /** One more booking adds one to the count of its own status and to no other. */
  lemma StatusCountStep(filtered: seq<Booking>, i: nat)
    requires i < |filtered|
    ensures forall s :: AdminBookingsPage.StatusCount(filtered[..i + 1], s)
                        == AdminBookingsPage.StatusCount(filtered[..i], s) + (if filtered[i].status == s then 1 else 0)
  {
    assert filtered[..i + 1] == filtered[..i] + [filtered[i]];
    forall s: BookingStatus
      ensures AdminBookingsPage.StatusCount(filtered[..i + 1], s)
              == AdminBookingsPage.StatusCount(filtered[..i], s) + (if filtered[i].status == s then 1 else 0)
    {
      CountSnoc(filtered[..i], filtered[i], AdminBookingsPage.HasStatus(s));
    }
  }
}
