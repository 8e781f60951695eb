/**
 * The records of the rental marketplace (users, shops, bikes, reviews,
 * bookings, payments) and the search-filter object, with their closed
 * string unions as datatypes.
 *
 * Instants (ISO timestamps in the application) are integers: milliseconds
 * since the epoch. `toISOString` always yields the same fixed-width format,
 * so the application's string comparison of two timestamps agrees with the
 * integer comparison used here.
 */
module Types {
  import opened Wrappers

  type Instant = int

  /** Milliseconds in one hour and in one day. */
  const HourMs: int := 60 * 60 * 1000
  const DayMs: int := 24 * HourMs

  // ---------------------------------------------------------------- closed unions

  /** `Booking["status"]`. */
  datatype BookingStatus = Pending | Confirmed | Cancelled | Completed

  /** `Booking["paymentStatus"]` and `Payment["status"]`: one union for both. */
  datatype PaymentStatus = PaymentPending | PaymentCompleted | PaymentFailed

  /** `Bike["gearType"]`. */
  datatype GearType = Manual | Automatic

  /** `SearchFilters["sortBy"]`. */
  datatype SortOrder = PriceLowToHigh | PriceHighToLow | ByRating

  /** The string a booking status is stored and compared as. */
  function BookingStatusName(st: BookingStatus): string {
    match st
    case Pending => "pending"
    case Confirmed => "confirmed"
    case Cancelled => "cancelled"
    case Completed => "completed"
  }

  /** Reading a stored status string: only the four names are statuses. */
  function ParseBookingStatus(s: string): (r: Option<BookingStatus>)
    ensures r.Some? ==> BookingStatusName(r.value) == s
    ensures r.None? ==> forall st :: BookingStatusName(st) != s
  {
    if s == "pending" then Some(Pending)
    else if s == "confirmed" then Some(Confirmed)
    else if s == "cancelled" then Some(Cancelled)
    else if s == "completed" then Some(Completed)
    else None
  }

  /** Every status survives the trip through its string, and the names are distinct. */
  lemma BookingStatusRoundTrip(st: BookingStatus)
    ensures ParseBookingStatus(BookingStatusName(st)) == Some(st)
  {
  }

  function PaymentStatusName(st: PaymentStatus): string {
    match st
    case PaymentPending => "pending"
    case PaymentCompleted => "completed"
    case PaymentFailed => "failed"
  }

  /** Reading a stored payment-status string: only the three names are payment statuses. */
  function ParsePaymentStatus(s: string): (r: Option<PaymentStatus>)
    ensures r.Some? ==> PaymentStatusName(r.value) == s
    ensures r.None? ==> forall st :: PaymentStatusName(st) != s
  {
    if s == "pending" then Some(PaymentPending)
    else if s == "completed" then Some(PaymentCompleted)
    else if s == "failed" then Some(PaymentFailed)
    else None
  }

  function GearTypeName(g: GearType): string {
    match g
    case Manual => "manual"
    case Automatic => "automatic"
  }

  /** Reading a gear-type string: only "manual" and "automatic" are gear types. */
  function ParseGearType(s: string): (r: Option<GearType>)
    ensures r.Some? ==> GearTypeName(r.value) == s
    ensures r.None? ==> forall g :: GearTypeName(g) != s
  {
    if s == "manual" then Some(Manual)
    else if s == "automatic" then Some(Automatic)
    else None
  }

  // ---------------------------------------------------------------- records

  /** `User` (the optional profile image is not modelled). */
  datatype User = User(
    id: string, name: string, email: string, phone: string, password: string,
    isAdmin: bool, createdAt: Instant)

  /** `Shop` (latitude and longitude are not modelled). */
  datatype Shop = Shop(
    id: string, name: string, address: string, city: string, area: string,
    pincode: string, phone: string, email: string, description: string,
    openingTime: string, closingTime: string, images: seq<string>,
    rating: int, reviewCount: int, isActive: bool)

  /** `Bike`; the source's field `type` is `bikeType` here. */
  datatype Bike = Bike(
    id: string, name: string, brand: string, model: string, year: int,
    bikeType: string, cc: int, gearType: GearType, pricePerHour: int,
    pricePerDay: int, deposit: int, description: string, images: seq<string>,
    features: seq<string>, shopId: string, isAvailable: bool, rating: int,
    reviewCount: int)

  /** `Review` (the optional user image is not modelled). */
  datatype Review = Review(
    id: string, userId: string, userName: string, bikeId: string,
    shopId: string, rating: int, comment: string, createdAt: Instant)

  /** `Booking`: a snapshot of the user, bike and shop at booking time, the
      rental range and amounts, and the two statuses. `paymentId` is optional. */
  datatype Booking = Booking(
    id: string, userId: string, userName: string, userPhone: string,
    userEmail: string, bikeId: string, bikeName: string, bikeImage: string,
    shopId: string, shopName: string, startDate: Instant, endDate: Instant,
    duration: int, totalAmount: int, deposit: int, status: BookingStatus,
    paymentId: Option<string>, paymentStatus: PaymentStatus,
    createdAt: Instant, updatedAt: Instant)

  /** The three gateway tokens; the source sets all three or none. */
  datatype GatewayDetails = GatewayDetails(paymentId: string, orderId: string, signature: string)

  /** `Payment`. */
  datatype Payment = Payment(
    id: string, bookingId: string, userId: string, amount: int,
    gateway: Option<GatewayDetails>, status: PaymentStatus,
    createdAt: Instant, updatedAt: Instant)

  /** `DateTimeRange`. */
  datatype DateTimeRange = DateTimeRange(startDate: Instant, endDate: Instant)

  /** `SearchFilters`: every field optional; `bikeType` is the source's `type`. */
  datatype SearchFilters = SearchFilters(
    location: Option<string>, dateRange: Option<DateTimeRange>,
    priceRange: Option<(int, int)>, brands: Option<seq<string>>,
    gearTypes: Option<seq<GearType>>, shops: Option<seq<string>>,
    sortBy: Option<SortOrder>, bikeType: Option<string>)

  /** The filter object `{}`. */
  const NoFilters := SearchFilters(None, None, None, None, None, None, None, None)

  // ---------------------------------------------------------------- creation inputs

  /** `Omit<Booking, "id" | "createdAt" | "updatedAt" | "status" | "paymentStatus">`. */
  datatype BookingInput = BookingInput(
    userId: string, userName: string, userPhone: string, userEmail: string,
    bikeId: string, bikeName: string, bikeImage: string, shopId: string,
    shopName: string, startDate: Instant, endDate: Instant, duration: int,
    totalAmount: int, deposit: int, paymentId: Option<string>)

  /** `Omit<Bike, "id" | "rating" | "reviewCount">`. */
  datatype BikeInput = BikeInput(
    name: string, brand: string, model: string, year: int, bikeType: string,
    cc: int, gearType: GearType, pricePerHour: int, pricePerDay: int,
    deposit: int, description: string, images: seq<string>,
    features: seq<string>, shopId: string, isAvailable: bool)

  /** `Omit<Shop, "id" | "rating" | "reviewCount">`. */
  datatype ShopInput = ShopInput(
    name: string, address: string, city: string, area: string,
    pincode: string, phone: string, email: string, description: string,
    openingTime: string, closingTime: string, images: seq<string>,
    isActive: bool)

  /** `Omit<Review, "id" | "createdAt">`. */
  datatype ReviewInput = ReviewInput(
    userId: string, userName: string, bikeId: string, shopId: string,
    rating: int, comment: string)

  // ---------------------------------------------------------------- partial updates

  /** `Partial<Bike>`: the fields an update object carries. */
  datatype BikePatch = BikePatch(
    id: Option<string>, name: Option<string>, brand: Option<string>,
    model: Option<string>, year: Option<int>, bikeType: Option<string>,
    cc: Option<int>, gearType: Option<GearType>, pricePerHour: Option<int>,
    pricePerDay: Option<int>, deposit: Option<int>,
    description: Option<string>, images: Option<seq<string>>,
    features: Option<seq<string>>, shopId: Option<string>,
    isAvailable: Option<bool>, rating: Option<int>, reviewCount: Option<int>)

  /** `{ ...b, ...p }`: every field the patch carries overrides the bike's. */
  function MergeBike(b: Bike, p: BikePatch): Bike {
    Bike(
      p.id.GetOr(b.id), p.name.GetOr(b.name), p.brand.GetOr(b.brand),
      p.model.GetOr(b.model), p.year.GetOr(b.year),
      p.bikeType.GetOr(b.bikeType), p.cc.GetOr(b.cc),
      p.gearType.GetOr(b.gearType), p.pricePerHour.GetOr(b.pricePerHour),
      p.pricePerDay.GetOr(b.pricePerDay), p.deposit.GetOr(b.deposit),
      p.description.GetOr(b.description), p.images.GetOr(b.images),
      p.features.GetOr(b.features), p.shopId.GetOr(b.shopId),
      p.isAvailable.GetOr(b.isAvailable), p.rating.GetOr(b.rating),
      p.reviewCount.GetOr(b.reviewCount))
  }

  /** The patch `{ ...b }` that carries every field of a bike. */
  function FullBikePatch(b: Bike): BikePatch {
    BikePatch(
      Some(b.id), Some(b.name), Some(b.brand), Some(b.model), Some(b.year),
      Some(b.bikeType), Some(b.cc), Some(b.gearType), Some(b.pricePerHour),
      Some(b.pricePerDay), Some(b.deposit), Some(b.description),
      Some(b.images), Some(b.features), Some(b.shopId), Some(b.isAvailable),
      Some(b.rating), Some(b.reviewCount))
  }

  const EmptyBikePatch := BikePatch(
    None, None, None, None, None, None, None, None, None, None, None, None,
    None, None, None, None, None, None)

  /** Merging the empty patch changes nothing; merging a full patch replaces the record. */
  lemma MergeBikeLaws(b: Bike, c: Bike)
    ensures MergeBike(b, EmptyBikePatch) == b
    ensures MergeBike(b, FullBikePatch(c)) == c
  {
  }

  /** `Partial<Shop>`. */
  datatype ShopPatch = ShopPatch(
    id: Option<string>, name: Option<string>, address: Option<string>,
    city: Option<string>, area: Option<string>, pincode: Option<string>,
    phone: Option<string>, email: Option<string>, description: Option<string>,
    openingTime: Option<string>, closingTime: Option<string>,
    images: Option<seq<string>>, rating: Option<int>,
    reviewCount: Option<int>, isActive: Option<bool>)

  /** `{ ...s, ...p }`. */
  function MergeShop(s: Shop, p: ShopPatch): Shop {
    Shop(
      p.id.GetOr(s.id), p.name.GetOr(s.name), p.address.GetOr(s.address),
      p.city.GetOr(s.city), p.area.GetOr(s.area), p.pincode.GetOr(s.pincode),
      p.phone.GetOr(s.phone), p.email.GetOr(s.email),
      p.description.GetOr(s.description), p.openingTime.GetOr(s.openingTime),
      p.closingTime.GetOr(s.closingTime), p.images.GetOr(s.images),
      p.rating.GetOr(s.rating), p.reviewCount.GetOr(s.reviewCount),
      p.isActive.GetOr(s.isActive))
  }

  /** The patch `{ ...s }` that carries every field of a shop. */
  function FullShopPatch(s: Shop): ShopPatch {
    ShopPatch(
      Some(s.id), Some(s.name), Some(s.address), Some(s.city), Some(s.area),
      Some(s.pincode), Some(s.phone), Some(s.email), Some(s.description),
      Some(s.openingTime), Some(s.closingTime), Some(s.images), Some(s.rating),
      Some(s.reviewCount), Some(s.isActive))
  }

  /** `Partial<Review>`. */
  datatype ReviewPatch = ReviewPatch(
    id: Option<string>, userId: Option<string>, userName: Option<string>,
    bikeId: Option<string>, shopId: Option<string>, rating: Option<int>,
    comment: Option<string>, createdAt: Option<Instant>)

  /** `{ ...r, ...p }`. */
  function MergeReview(r: Review, p: ReviewPatch): Review {
    Review(
      p.id.GetOr(r.id), p.userId.GetOr(r.userId), p.userName.GetOr(r.userName),
      p.bikeId.GetOr(r.bikeId), p.shopId.GetOr(r.shopId),
      p.rating.GetOr(r.rating), p.comment.GetOr(r.comment),
      p.createdAt.GetOr(r.createdAt))
  }

  /** The update `{ rating, comment }`: only those two fields. */
  function RatingCommentPatch(rating: int, comment: string): ReviewPatch {
    ReviewPatch(None, None, None, None, None, Some(rating), Some(comment), None)
  }

  /** Merging `{ rating, comment }` changes exactly the rating and the comment. */
  lemma RatingCommentPatchOnlyTouchesThose(r: Review, rating: int, comment: string)
    ensures MergeReview(r, RatingCommentPatch(rating, comment))
         == r.(rating := rating, comment := comment)
  {
  }
}
