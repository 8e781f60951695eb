# Bike rental marketplace: a verified model of its stores and page logic

The application is a browser-only bike-rental marketplace. Visitors browse bikes and shops,
pick a date range, book a bike, pay and review it. Administrators manage bookings, bikes,
shops, users and reviews, and read analytics. All data lives in memory in a handful of
stores. Each store copies its array, overwrites one slot or appends a record, and replaces
its state. Failure is signalled by `false` or `null`, never by an exception.

This Dafny project models those stores and the derivations the pages compute over them, and
proves what they promise.

**Records.** `Types` holds the records and the search-filter object. Closed string unions
(booking status, payment status, gear type, sort order) are datatypes. The booking status,
payment status and gear type also have parsers that accept exactly their names. Instants are integers, in milliseconds since the epoch. The
application compares fixed-width ISO strings, and that order agrees with integer order.

**Stores** are classes with `seq` fields and methods that state their whole new state. Each
method is tied to a pure function that specifies it: `NewBooking`, `StatusUpdated`,
`ShopDeleted`, …
- `BookingContext`: bookings and payments, the status and payment updates, and the
  availability test.
- `BikeContext`: the catalogue, its staged filter-and-sort engine, and add, update and delete.
- `ShopContext` and `ReviewContext`: shops and reviews.
- `AuthContext`: the shared user list (`UserDirectory`) and the signed-in session
  (`AuthSession`).
- `AdminUsersPage.AdminUsersView`: the users page pushes into, overwrites and splices that
  shared list.

Ids are a prefix followed by the collection's length plus one (`Ids`). While nothing is
deleted they are distinct. After a delete the next id can repeat one still in use; this is
proved for shops, users and the generic scheme. In the four context stores (bookings, bikes,
shops, reviews) an update changes the first record with the id and a delete removes every
record with it. The users page is the exception: its own list's update replaces every record
with the id, and its delete from the shared list removes only the first.

**Pages.**
- `BikeDetailPage`: rental pricing by hours and days, and "Book Now".
- `BikesPage`: the filter form and the URL parameters.
- `HomePage`: the search query, the category cards and the featured shops.
- `ShopsPage`: the area list and the search-and-area filter.
- `UserBookingsPanel` and `UserReviewsPanel`: the dashboard tabs, the action rules and the
  review-edit checks.
- The administrator pages for bookings, analytics, the dashboard, users, reviews, bikes and
  shops: searches, tabs, counts, aggregates and the add/edit/delete dialogs.
- `Tally`: the group-by-key accumulation and the monthly arrays, written as loops. The
  analytics and dashboard pages share it.
- `Seqs` and `Text`: the array and string built-ins the application uses (`filter`, `find`,
  `sort`, `new Set`, `slice`, `toLowerCase`, `includes`, `trim`, `split`), with the
  properties callers rely on.

Parts of the program that are not visible become parameters of the model:
- the clock (`now`);
- the calendar year and month of an instant (`yearOf`, `monthOf`), which depend on the time
  zone;
- the gateway's answer to a payment.

The following are left out: browser storage, toasts, navigation and rendering.

## Model

| member | source | states |
|---|---|---|
| Types.ParseBookingStatus | src/types/index.ts:82 | a stored string is a booking status exactly when it is one of the four names |
| Types.BookingStatusRoundTrip | src/types/index.ts:82 | every status reads back from its name, and the four names are distinct |
| Types.ParsePaymentStatus | src/types/index.ts:84 | a stored string is a payment status exactly when it is one of the three names |
| Types.ParseGearType | src/types/index.ts:41 | only "manual" and "automatic" are gear types |
| Types.MergeBikeLaws | src/contexts/BikeContext.tsx:181 | spreading an empty `Partial<Bike>` changes nothing; spreading a complete one replaces the record |
| Types.RatingCommentPatchOnlyTouchesThose | src/components/dashboard/UserReviews.tsx:106-109 | merging `{ rating, comment }` changes exactly those two fields |
| Ids.CanonicalUnique | src/contexts/BikeContext.tsx:163 | while no record was deleted, the ids a store generated are pairwise distinct |
| Ids.NextIdFresh | src/contexts/ShopContext.tsx:65 | while no record was deleted, the next generated id is new and keeps the numbering |
| Ids.DeleteThenAddRepeatsId | src/contexts/ReviewContext.tsx:40 | after removing any record but the last, the next generated id is the last record's, still in use |
| Text.IdInjective | src/contexts/BookingContext.tsx:120 | two ids with the same prefix are equal only when their numbers are |
| BookingContext.UserBookings | src/contexts/BookingContext.tsx:102-104 | exactly the bookings with the user's id, in store order (a subsequence of the store) |
| BookingContext.ShopBookings | src/contexts/BookingContext.tsx:106-108 | exactly the bookings with the shop's id, in store order |
| BookingContext.BikeBookings | src/contexts/BookingContext.tsx:110-112 | exactly the bookings with the bike's id, in store order |
| BookingContext.IndexOf | src/contexts/BookingContext.tsx:132 | -1 exactly when no booking has the id; otherwise the first index holding it |
| BookingContext.GetBookingById | src/contexts/BookingContext.tsx:151-153 | nothing exactly when no booking has the id; otherwise the first booking with it |
| BookingContext.CheckAvailability | src/contexts/BookingContext.tsx:201-220 | available exactly when no booking of that bike, other than a cancelled one, meets the range under any of the three overlap clauses |
| BookingContext.ClashIsHalfOpenOverlap | src/contexts/BookingContext.tsx:212-216 | for non-empty ranges the three clauses together mean exactly that the half-open intervals overlap |
| BookingContext.ZeroLengthBookingClashes | src/contexts/BookingContext.tsx:212-216 | a stored zero-length booking at t clashes with every request whose closed range contains t |
| BookingContext.BackToBackAvailable | src/contexts/BookingContext.tsx:207-219 | a request that starts when every other active booking of the bike has ended, or ends before it starts, is available |
| BookingContext.OnlyActiveBookingsOfTheBikeBlock | src/contexts/BookingContext.tsx:208-209 | cancelled bookings and other bikes' bookings never make a bike unavailable |
| BookingContext.NewBooking | src/contexts/BookingContext.tsx:117-125 | the caller's fields, the given id, status and payment status pending, created and updated at the same instant |
| BookingContext.NewBookingBlocksItsRange | src/contexts/BookingContext.tsx:118-127 | once a booking is added, the same bike and range is no longer available |
| BookingContext.CreateOnlyReducesAvailability | src/contexts/BookingContext.tsx:127 | appending any booking never makes an unavailable bike available |
| BookingContext.CreateKeepsIdsCanonical | src/contexts/BookingContext.tsx:120 | while ids are booking1, booking2, …, the next id is new and the ids stay in that form |
| BookingContext.StatusUpdated | src/contexts/BookingContext.tsx:131-145 | nothing exactly when no booking has the id; otherwise only the first such booking changes, and only its status and update time |
| BookingContext.AnyStatusCanFollowAny | src/contexts/BookingContext.tsx:131-145 | any status can be written over any status, cancelled and completed included |
| BookingContext.CancelKeepsTerms | src/contexts/BookingContext.tsx:137-141 | cancelling leaves every field but the status and update time as it was |
| BookingContext.CancelOnlyFreesRanges | src/contexts/BookingContext.tsx:147-149 | after a cancel, a bike available before is still available and the cancelled booking blocks nothing |
| BookingContext.PaymentOutcome | src/contexts/BookingContext.tsx:175 | completed exactly when gateway details are given, never failed |
| BookingContext.NewPayment | src/contexts/BookingContext.tsx:169-181 | id numbered after the payment count, the caller's booking, user and amount, the gateway tokens, and one timestamp |
| BookingContext.PaymentApplied | src/contexts/BookingContext.tsx:186-194 | links the payment, copies its status, sets confirmed with details and pending without, and changes nothing else |
| BookingContext.PaymentWithoutDetailsDemotes | src/contexts/BookingContext.tsx:191-192 | a payment without details turns even a confirmed or completed booking back into a pending, unpaid one |
| BookingContext.BookingStore.constructor | src/contexts/BookingContext.tsx:79-80 | the store starts from the loaded bookings and payments |
| BookingContext.BookingStore.CreateBooking | src/contexts/BookingContext.tsx:114-129 | appends exactly the new pending booking numbered after the current length, returns its id, payments untouched |
| BookingContext.BookingStore.UpdateBookingStatus | src/contexts/BookingContext.tsx:131-145 | false and no change for an unknown id; otherwise the collection becomes StatusUpdated's result |
| BookingContext.BookingStore.CancelBooking | src/contexts/BookingContext.tsx:147-149 | the same as updating the status to cancelled |
| BookingContext.BookingStore.CreatePayment | src/contexts/BookingContext.tsx:155-199 | no id and no change for an unknown booking; otherwise appends the new payment and applies it to the first booking with the id |
| BikeContext.LocationShopIds | src/contexts/BikeContext.tsx:72-77 | exactly the ids of the shops whose area or city contains the location ignoring case, in list order; empty exactly when no shop serves it |
| BikeContext.NextStage | src/contexts/BikeContext.tsx:66-125 | filtering the output of the first n stages by stage n + 1 is filtering the catalogue by the first n + 1 stages |
| BikeContext.InactiveStageKeepsAll | src/contexts/BikeContext.tsx:71-122 | a stage whose guard is false leaves the list as it is |
| BikeContext.StageStep | src/contexts/BikeContext.tsx:66-125 | a stage, run or skipped by its guard, takes the first n stages' output to the first n + 1 stages' output |
| BikeContext.StagedSearch | src/contexts/BikeContext.tsx:127-141 | the seven stages followed by the sort give the search result |
| BikeContext.Ordered | src/contexts/BikeContext.tsx:127-141 | a permutation of its input: unchanged without a sort, ascending by day price, descending by day price, or descending by rating; the sort is stable, so the bikes of any one key keep their input order |
| BikeContext.SearchResult | src/contexts/BikeContext.tsx:61-145 | exactly the bikes passing every stage, each as often as in the catalogue, in catalogue order without a sort and in the sort's order with one, bikes with equal keys then in catalogue order |
| BikeContext.NoFiltersShowEverything | src/contexts/BikeContext.tsx:54 | the empty filter object lists the whole catalogue in order |
| BikeContext.LocationSkippedWhenNoShopServes | src/contexts/BikeContext.tsx:71-83 | a blank location, or one no shop serves, gives the same result as no location at all, not an empty list |
| BikeContext.LocationKeepsServedBikes | src/contexts/BikeContext.tsx:79-82 | when the location stage runs, a bike passes it exactly when its shop serves the location |
| BikeContext.EmptyBrandsFilterNothing | src/contexts/BikeContext.tsx:104 | an empty brand list gives the same result as no brand filter |
| BikeContext.EmptyGearTypesFilterNothing | src/contexts/BikeContext.tsx:110 | an empty gear-type list gives the same result as no gear filter |
| BikeContext.EmptyShopsFilterNothing | src/contexts/BikeContext.tsx:116 | an empty shop list gives the same result as no shop filter |
| BikeContext.TypeAllFiltersNothing | src/contexts/BikeContext.tsx:122 | the type "all" gives the same result as no type filter |
| BikeContext.BikesByShop | src/contexts/BikeContext.tsx:156-158 | exactly the shop's bikes, in catalogue order |
| BikeContext.BikeById | src/contexts/BikeContext.tsx:148 | nothing exactly when no bike has the id; otherwise the first bike with it |
| BikeContext.ShopNameById | src/contexts/BikeContext.tsx:215-218 | "Unknown Shop" when no shop has the id; otherwise the first such shop's name |
| BikeContext.NewBike | src/contexts/BikeContext.tsx:161-166 | every field the caller gave, the new id, rating 0 and no reviews |
| BikeContext.BikeUpdated | src/contexts/BikeContext.tsx:175-183 | nothing exactly for an unknown id; otherwise only the first bike with the id changes, to the patch merged into it |
| BikeContext.BikeDeleted | src/contexts/BikeContext.tsx:196-202 | nothing exactly for an unknown id; otherwise every bike with the id is gone and every other bike stays, in order |
| BikeContext.Narrowed | src/contexts/BikeContext.tsx:66-141 | running the seven guarded stages one after the other and then the sort yields the search result |
| BikeContext.BikeCatalogue.constructor | src/contexts/BikeContext.tsx:50-54 | the loaded bikes listed and shown, nothing selected, no filters |
| BikeContext.BikeCatalogue.SetSearchFilters | src/contexts/BikeContext.tsx:61-145 | the filters are recorded and the shown list becomes the search result; the catalogue and selection are untouched |
| BikeContext.BikeCatalogue.SelectBike | src/contexts/BikeContext.tsx:147-150 | the selection becomes the first bike with the id, or none |
| BikeContext.BikeCatalogue.ClearSelectedBike | src/contexts/BikeContext.tsx:152-154 | the selection is cleared and nothing else changes |
| BikeContext.BikeCatalogue.AddBike | src/contexts/BikeContext.tsx:160-173 | appends the new bike numbered after the length; the shown list is the search over the catalogue as it was before the append |
| BikeContext.BikeCatalogue.UpdateBike | src/contexts/BikeContext.tsx:175-194 | false and no change for an unknown id; otherwise the merge, the selection following the edited bike, and the shown list recomputed from the old catalogue |
| BikeContext.BikeCatalogue.DeleteBike | src/contexts/BikeContext.tsx:196-213 | false and no change for an unknown id; otherwise every match removed, a matching selection cleared, and the shown list recomputed from the old catalogue |
| ShopContext.ShopById | src/contexts/ShopContext.tsx:54 | nothing exactly when no shop has the id; otherwise the first shop with it |
| ShopContext.NewShop | src/contexts/ShopContext.tsx:63-68 | every field the caller gave, the new id, rating 0 and no reviews |
| ShopContext.ShopUpdated | src/contexts/ShopContext.tsx:73-81 | nothing exactly for an unknown id; otherwise only the first shop with the id changes, to the patch merged into it |
| ShopContext.ShopDeleted | src/contexts/ShopContext.tsx:91-97 | nothing exactly for an unknown id; otherwise every shop with the id is gone and every other shop stays, in order |
| ShopContext.UpdateHitsFirstDeleteHitsAll | src/contexts/ShopContext.tsx:73-97 | where two shops share an id, an update changes only the first while a delete removes both |
| ShopContext.DeleteThenAddRepeatsId | src/contexts/ShopContext.tsx:65 | after deleting any shop but the last, the next shop added gets an id already in use |
| ShopContext.ShopStore.constructor | src/contexts/ShopContext.tsx:45-46 | the loaded shops, nothing selected |
| ShopContext.ShopStore.SelectShop | src/contexts/ShopContext.tsx:53-56 | the selection becomes the first shop with the id, or none |
| ShopContext.ShopStore.ClearSelectedShop | src/contexts/ShopContext.tsx:58-60 | the selection is cleared, the shops untouched |
| ShopContext.ShopStore.AddShop | src/contexts/ShopContext.tsx:62-71 | appends exactly the new shop numbered after the length |
| ShopContext.ShopStore.UpdateShop | src/contexts/ShopContext.tsx:73-89 | false and no change for an unknown id; otherwise the merge, with a selection of that id following the edited shop |
| ShopContext.ShopStore.DeleteShop | src/contexts/ShopContext.tsx:91-105 | false and no change for an unknown id; otherwise every match removed and a matching selection cleared |
| ReviewContext.UserReviews | src/contexts/ReviewContext.tsx:25-27 | exactly the user's reviews, in store order |
| ReviewContext.BikeReviews | src/contexts/ReviewContext.tsx:29-31 | exactly the bike's reviews, in store order |
| ReviewContext.ShopReviews | src/contexts/ReviewContext.tsx:33-35 | exactly the shop's reviews, in store order |
| ReviewContext.NewReview | src/contexts/ReviewContext.tsx:38-42 | every field the caller gave, the new id and the creation time |
| ReviewContext.ReviewUpdated | src/contexts/ReviewContext.tsx:47-55 | nothing exactly for an unknown id; otherwise only the first review with the id changes, to the patch merged into it |
| ReviewContext.ReviewDeleted | src/contexts/ReviewContext.tsx:59-65 | nothing exactly for an unknown id; otherwise every review with the id is gone and the others stay, in order |
| ReviewContext.UpdateAcceptsAnyRating | src/contexts/ReviewContext.tsx:47-57 | the store checks no range: any rating can be written into a review |
| ReviewContext.AverageRating | src/contexts/ReviewContext.tsx:70-83 | 0 when no review matches; otherwise a value that times the count gives the sum of the matching ratings |
| ReviewContext.AverageWithinBounds | src/contexts/ReviewContext.tsx:79-82 | the average lies between the lowest and highest matching rating |
| ReviewContext.ReviewStore.constructor | src/contexts/ReviewContext.tsx:23 | the store starts from the seed reviews |
| ReviewContext.ReviewStore.AddReview | src/contexts/ReviewContext.tsx:37-45 | appends exactly the new review numbered after the length |
| ReviewContext.ReviewStore.UpdateReview | src/contexts/ReviewContext.tsx:47-57 | false and no change for an unknown id; otherwise the store becomes ReviewUpdated's result |
| ReviewContext.ReviewStore.DeleteReview | src/contexts/ReviewContext.tsx:59-68 | false and no change for an unknown id; otherwise the store becomes ReviewDeleted's result |
| AuthContext.UserDirectory.constructor | src/contexts/AuthContext.tsx:4 | the shared list starts as the seed users |
| AuthContext.FindLogin | src/contexts/AuthContext.tsx:74-76 | found exactly when a stored non-administrator has both the email and the password; what is found is such a user |
| AuthContext.FindAdmin | src/contexts/AuthContext.tsx:119-121 | found exactly when a stored administrator has both the email and the password; what is found is such a user |
| AuthContext.HardcodedAdmin | src/contexts/AuthContext.tsx:100-108 | the fixed administrator: id admin1, the fixed email and password, created now |
| AuthContext.AdminLogin | src/contexts/AuthContext.tsx:94-133 | the fixed credentials always give the fixed administrator; otherwise only a stored administrator with both credentials; nothing exactly when neither holds |
| AuthContext.NewUser | src/contexts/AuthContext.tsx:161-169 | the given fields, never an administrator, created now |
| AuthContext.Registered | src/contexts/AuthContext.tsx:155-172 | nothing exactly when the email is taken; otherwise the list with one user appended, numbered after the length, never an administrator |
| AuthContext.RegisterKeepsEmailsUnique | src/contexts/AuthContext.tsx:155-172 | registration keeps every email unique |
| AuthContext.LoginAndAdminLoginExclusive | src/contexts/AuthContext.tsx:74-76 | with unique emails no credentials pass both the user and the stored-administrator search |
| AuthContext.RegisteredUserLogsInAsUser | src/contexts/AuthContext.tsx:147-189 | the account just registered can log in as a user and never through the stored-administrator path |
| AuthContext.AuthSession.constructor | src/contexts/AuthContext.tsx:28-30 | nobody signed in |
| AuthContext.AuthSession.RestoreSession | src/contexts/AuthContext.tsx:51-66 | a saved user is signed in again, an administrator exactly when the record says so; no saved user changes nothing |
| AuthContext.AuthSession.Login | src/contexts/AuthContext.tsx:68-92 | succeeds exactly when FindLogin finds a user, who is then signed in as a non-administrator; a failure changes nothing |
| AuthContext.AuthSession.LoginAsAdmin | src/contexts/AuthContext.tsx:94-138 | succeeds exactly when AdminLogin finds a user, who is then signed in as an administrator; a failure changes nothing |
| AuthContext.AuthSession.Logout | src/contexts/AuthContext.tsx:140-145 | nobody is signed in |
| AuthContext.AuthSession.Register | src/contexts/AuthContext.tsx:147-189 | the shared list becomes Registered's result; on success the new user is signed in as a non-administrator, on failure nothing changes |
| BikeDetailPage.Trunc | src/pages/BikeDetailPage.tsx:61-62 | whole-unit differences truncate toward zero: the floor quotient for a forward range, the negated quotient of the magnitude for a backward one |
| BikeDetailPage.RentalCostByLength | src/pages/BikeDetailPage.tsx:59-74 | for a forward range the charge is the hourly rate times the whole hours under a day, and the daily rate times the whole days from a day on |
| BikeDetailPage.TwentyThreeHours | src/pages/BikeDetailPage.tsx:68-69 | 23 hours are charged hourly |
| BikeDetailPage.TwentyFourHours | src/pages/BikeDetailPage.tsx:70-71 | 24 hours are charged as one day |
| BikeDetailPage.FortyEightHours | src/pages/BikeDetailPage.tsx:70-71 | 48 hours are charged as two days |
| BikeDetailPage.EmptyRangeCostsNothing | src/pages/BikeDetailPage.tsx:68-69 | an empty range costs nothing |
| BikeDetailPage.PartDaysAreFree | src/pages/BikeDetailPage.tsx:62-71 | hours beyond whole days are not charged: one day up to just under two days costs one day |
| BikeDetailPage.LongerCanBeCheaper | src/pages/BikeDetailPage.tsx:68-71 | when a day costs less than 23 hours, 24 hours cost less than 23: the price is not monotone in the length |
| BikeDetailPage.BookingRequest | src/pages/BikeDetailPage.tsx:99-114 | the user's, the bike's and the shop's details, the bike's first picture ("" without pictures), the chosen range, the hours as the duration, the charge and the deposit as separate amounts, no payment |
| BikeDetailPage.BikeDetailView.constructor | src/pages/BikeDetailPage.tsx:42-44 | 24 hours, one day, amount 0, shown available |
| BikeDetailPage.BikeDetailView.DatesChanged | src/pages/BikeDetailPage.tsx:59-86 | with a bike and both dates: the whole hours, the whole days or 1 when there are none, the rental charge and the store's availability answer; otherwise nothing changes |
| BikeDetailPage.BikeDetailView.BookNow | src/pages/BikeDetailPage.tsx:88-120 | signed-out visitors go to login; a booking is created exactly when signed in with a user, a bike and both dates, and it is the store's new booking built from the page's state; the availability is not consulted |
| BikeDetailPage.BookedAmounts | src/pages/BikeDetailPage.tsx:99-116 | the stored booking keeps the hours, the rental charge without the deposit and the deposit apart, pending and unpaid, and the page's grand total adds the two |
| BikesPage.Brands | src/pages/BikesPage.tsx:55 | every bike's brand, each once, and nothing else |
| BikesPage.BikeTypes | src/pages/BikesPage.tsx:56 | "all" first, then every bike's type, each once, and nothing else |
| BikesPage.LowestPrice | src/pages/BikesPage.tsx:57 | a daily price some bike has, no higher than any bike's |
| BikesPage.HighestPrice | src/pages/BikesPage.tsx:58 | a daily price some bike has, no lower than any bike's |
| BikesPage.MinPrice | src/pages/BikesPage.tsx:57 | 0 without bikes; otherwise a lower bound of every daily price |
| BikesPage.MaxPrice | src/pages/BikesPage.tsx:58 | 2000 without bikes; otherwise an upper bound of every daily price |
| BikesPage.PriceSpanIsAttained | src/pages/BikesPage.tsx:57-58 | with bikes listed the span is ordered and both ends are prices some bike has |
| BikesPage.FormFilters | src/pages/BikesPage.tsx:99-113 | each field is set exactly when the form leaves its resting value, and then to the form's value; a start date without an end extends one day; the price only when it differs from the full span |
| BikesPage.RestingFormSubmitsNothing | src/pages/BikesPage.tsx:99-128 | the form at rest submits the empty filter object |
| BikesPage.FullSpanPriceIsNoFilter | src/pages/BikesPage.tsx:108 | leaving the full-span price out returns the same bikes in the same order as applying it |
| BikesPage.UrlFilters | src/pages/BikesPage.tsx:82-96 | nothing exactly when no parameter was found; otherwise location, date range and type from the parameters and no other field |
| BikesPage.BuildFilters | src/pages/BikesPage.tsx:99-113 | the field-by-field construction yields FormFilters' object |
| BikesPage.BikesView.constructor | src/pages/BikesPage.tsx:46-53 | the resting form with the span 0 to 2000 |
| BikesPage.BikesView.SyncPriceRange | src/pages/BikesPage.tsx:60-64 | with bikes listed the slider becomes their price span; otherwise it stays; no other field changes |
| BikesPage.BikesView.InitFromUrl | src/pages/BikesPage.tsx:66-97 | one run of the URL effect: the form takes each parameter found; the catalogue is searched with UrlFilters' object exactly when it exists, and left alone otherwise |
| BikesPage.UrlDropsTickedBrands | src/pages/BikesPage.tsx:82-96 | the URL's filter object never has brands, so it differs from any submitted form with a brand ticked |
| BikesPage.BikesView.RenderAsWritten | src/pages/BikesPage.tsx:44-97 | every render runs the URL effect: with a parameter, the catalogue's filters become the URL's and typed location and type are overwritten |
| BikesPage.BikesView.ApplyThenRenderAsWritten | src/pages/BikesPage.tsx:44-117 | "Apply" then a render: with a parameter in the URL the catalogue ends with the URL's filters, whatever the form held |
| BikesPage.BikesView.Render | src/pages/BikesPage.tsx:66-97 | the effect keyed on the query string: a first render of a URL runs it; a later render of the same URL changes neither the form nor the filters |
| BikesPage.BikesView.ApplyThenRender | src/pages/BikesPage.tsx:66-117 | with the keyed effect, "Apply" then a render of the same URL leaves the catalogue with the form's filters and their search result |
| BikesPage.BikesView.ApplyFilters | src/pages/BikesPage.tsx:99-117 | the catalogue's filters become FormFilters of the form and its list the search result for them |
| BikesPage.BikesView.ResetFilters | src/pages/BikesPage.tsx:119-130 | the form rests at the current span and the catalogue lists every bike in catalogue order |
| UserBookingsPanel.Tab | src/components/dashboard/UserBookings.tsx:29-46 | a tab is exactly the user's bookings satisfying its condition, in store order |
| UserBookingsPanel.TabsDisjointAndCovering | src/components/dashboard/UserBookings.tsx:32-46 | no upcoming booking is on the Past or the Cancelled tab, and every booking of the user is on one of the three |
| UserBookingsPanel.CancelledAndOverIsOnTwoTabs | src/components/dashboard/UserBookings.tsx:38-46 | a cancelled booking that is over is on both the Past and the Cancelled tab |
| UserBookingsPanel.ActionsAreConsistent | src/components/dashboard/UserBookings.tsx:170-190 | a card offering payment offers cancelling, none offers both cancelling and reviewing, and every upcoming card offers cancelling |
| UserBookingsPanel.CancelMovesToCancelledTab | src/components/dashboard/UserBookings.tsx:78-83 | the cancelled booking leaves Upcoming, joins Cancelled and offers no action |
| UserBookingsPanel.HandleCancelBooking | src/components/dashboard/UserBookings.tsx:78-96 | nothing without a selection; otherwise the bookings become the store's cancellation of the selected id, succeeding exactly when the id is known |
| UserReviewsPanel.MyReviews | src/components/dashboard/UserReviews.tsx:40-41 | exactly the reviews written under the viewer's id, or under "" for nobody |
| UserReviewsPanel.BikeTab | src/components/dashboard/UserReviews.tsx:43-46 | exactly my reviews whose bike is listed |
| UserReviewsPanel.ShopTab | src/components/dashboard/UserReviews.tsx:48-51 | exactly my reviews whose shop is listed |
| UserReviewsPanel.TabsOverlap | src/components/dashboard/UserReviews.tsx:43-51 | a review naming a listed bike and a listed shop is on both tabs, one naming neither on none |
| UserReviewsPanel.CheckEdit | src/components/dashboard/UserReviews.tsx:88-104 | accepted exactly when the rating is 1 to 5 and the trimmed comment is non-empty; the rating is checked first |
| UserReviewsPanel.BlankCommentRejected | src/components/dashboard/UserReviews.tsx:97 | with a valid rating, the comment is refused exactly when it is all white space |
| UserReviewsPanel.HandleUpdateReview | src/components/dashboard/UserReviews.tsx:85-124 | without a selection or with a refused edit the store is untouched; otherwise the store's update with only the rating and the comment |
| UserReviewsPanel.AcceptedEditIsInRange | src/components/dashboard/UserReviews.tsx:106-109 | an accepted edit leaves a rating from 1 to 5 and a non-blank comment and changes nothing else in the review |
| UserReviewsPanel.HandleConfirmDelete | src/components/dashboard/UserReviews.tsx:126-144 | nothing without a selection; otherwise the reviews become the store's deletion of the selected id |
| AdminBookingsPage.FilteredBookings | src/pages/admin/AdminBookingsPage.tsx:116-127 | exactly the bookings matching the search and on the tab, in store order |
| AdminBookingsPage.EmptySearchListsAll | src/pages/admin/AdminBookingsPage.tsx:116-127 | an empty search on the "all" tab lists every booking, in order |
| AdminBookingsPage.StatusCount | src/pages/admin/AdminBookingsPage.tsx:130-133 | a status count is at most the number of bookings |
| AdminBookingsPage.StatusCountsSum | src/pages/admin/AdminBookingsPage.tsx:130-133 | the four status counts add up to the number of bookings |
| AdminBookingsPage.TabSizeIsCount | src/pages/admin/AdminBookingsPage.tsx:116-133 | with an empty search a status tab lists as many bookings as that status's count |
| AdminBookingsPage.DetailDialogOffers | src/pages/admin/AdminBookingsPage.tsx:370-406 | the detail dialog offers exactly the lifecycle steps from the booking's status |
| AdminBookingsPage.AdminBookingsView.constructor | src/pages/admin/AdminBookingsPage.tsx:50-53 | nothing selected, the status choice at pending, both dialogs closed |
| AdminBookingsPage.AdminBookingsView.OpenStatusDialog | src/pages/admin/AdminBookingsPage.tsx:248-256 | the enabled status button selects the booking, preselects its current status and opens the dialog |
| AdminBookingsPage.AdminBookingsView.ChooseInDetailDialog | src/pages/admin/AdminBookingsPage.tsx:370-406 | a detail button swaps the detail dialog for the update dialog with a status one lifecycle step on |
| AdminBookingsPage.AdminBookingsView.SelectStatus | src/pages/admin/AdminBookingsPage.tsx:436-439 | the select sets any of the four statuses and nothing else |
| AdminBookingsPage.AdminBookingsView.HandleUpdateStatus | src/pages/admin/AdminBookingsPage.tsx:95-113 | nothing without a selection; otherwise the store's status update with the chosen status, and on success the dialog closes and the selection clears; the chosen status, the detail dialog and the payments stay as they were |
| AdminBookingsPage.SelectBypassesLifecycle | src/pages/admin/AdminBookingsPage.tsx:248-256 | a confirmed booking's status button is enabled and choosing "pending" there moves it back, which no lifecycle step allows |
| AdminAnalyticsPage.FilteredBookings | src/pages/admin/AdminAnalyticsPage.tsx:70-105 | exactly the bookings created since the range's start and, unless "all" is selected, at the selected shop, in store order |
| AdminAnalyticsPage.RangesNest | src/pages/admin/AdminAnalyticsPage.tsx:78-97 | a shorter range keeps exactly the bookings of a longer one created since its own start |
| AdminAnalyticsPage.ShopSelectionNarrows | src/pages/admin/AdminAnalyticsPage.tsx:99-103 | selecting a shop keeps exactly that shop's bookings among those shown for "all" |
| AdminAnalyticsPage.RevenueCountsPaidOnly | src/pages/admin/AdminAnalyticsPage.tsx:140-142 | the revenue is the sum of every filtered booking's paid amount: unpaid bookings add nothing |
| AdminAnalyticsPage.RoundDiv | src/pages/admin/AdminAnalyticsPage.tsx:147 | an integer within a half of a / n, halves going up, as `Math.round` rounds |
| AdminAnalyticsPage.RoundDivUnique | src/pages/admin/AdminAnalyticsPage.tsx:147 | only one integer is within a half of a / n |
| AdminAnalyticsPage.AvgBookingValue | src/pages/admin/AdminAnalyticsPage.tsx:146-148 | 0 without bookings; otherwise the revenue over the number of all filtered bookings, paid or not, rounded |
| AdminAnalyticsPage.CompletionRate | src/pages/admin/AdminAnalyticsPage.tsx:150-153 | 0 without bookings; otherwise the completed share in percent, rounded, and always from 0 to 100 |
| AdminAnalyticsPage.RateBounds | src/pages/admin/AdminAnalyticsPage.tsx:151-153 | a rounded percentage of a part of a whole lies from 0 to 100 |
| AdminAnalyticsPage.CompletionRateExtremes | src/pages/admin/AdminAnalyticsPage.tsx:150-153 | 100 when every filtered booking is completed, 0 when none is |
| AdminAnalyticsPage.RevenueByShopOf | src/pages/admin/AdminAnalyticsPage.tsx:155-178 | nothing without shops; otherwise sorted with the largest value first, shops of equal revenue in the order of their first paid booking |
| AdminAnalyticsPage.RevenueByShop | src/pages/admin/AdminAnalyticsPage.tsx:155-178 | the loop and the renaming and sorting yield RevenueByShopOf's entries |
| AdminAnalyticsPage.RevenueByShopSumsToTotal | src/pages/admin/AdminAnalyticsPage.tsx:140-177 | with shops listed the chart's values add up to the revenue card |
| AdminAnalyticsPage.RevenueByShopOnePerShop | src/pages/admin/AdminAnalyticsPage.tsx:160-177 | with shops listed there is one entry per shop id with paid bookings, each the shop's label and its paid revenue, and no other entry |
| AdminAnalyticsPage.BikeRanking | src/pages/admin/AdminAnalyticsPage.tsx:185-200 | the labelled counts sorted with the largest first, bikes of equal count in the order of their first booking |
| AdminAnalyticsPage.BookingsByBikeOf | src/pages/admin/AdminAnalyticsPage.tsx:180-201 | nothing without bookings; otherwise at most five entries, largest first; of the bikes with any one count, those kept are the first booked |
| AdminAnalyticsPage.BookingsByBike | src/pages/admin/AdminAnalyticsPage.tsx:180-201 | the loop and the renaming, sorting and slicing yield BookingsByBikeOf's entries |
| AdminAnalyticsPage.BikeRankingCounts | src/pages/admin/AdminAnalyticsPage.tsx:185-200 | one entry per booked bike, each its label and its number of bookings, the counts adding up to the number of bookings |
| AdminAnalyticsPage.BikeRankingSum | src/pages/admin/AdminAnalyticsPage.tsx:187-192 | every booking counts once in the ranking |
| AdminAnalyticsPage.BookingsByBikeIsTop | src/pages/admin/AdminAnalyticsPage.tsx:200 | the five shown are a prefix of the ranking, no bike cut off has more bookings than one shown, and with five or fewer bikes nothing is cut |
| AdminAnalyticsPage.TimeSeries | src/pages/admin/AdminAnalyticsPage.tsx:203-229 | one point per key of the paid bookings in order of first appearance, each with its total, names unique, amounts adding up to the revenue |
| AdminAnalyticsPage.StatusDistribution | src/pages/admin/AdminAnalyticsPage.tsx:231-249 | each slice holds the count of its status, in the page's order, and the four add up to the number of bookings |
| AdminAnalyticsPage.StatusSlicesSum | src/pages/admin/AdminAnalyticsPage.tsx:231-249 | the four slices add up to the number of filtered bookings |
| AdminAnalyticsPage.StatusCountStep | src/pages/admin/AdminAnalyticsPage.tsx:239-241 | one more booking adds one to its own status's counter and to no other |
| AdminDashboardPage.DashboardCards | src/pages/admin/AdminDashboardPage.tsx:56-159 | the revenue of the paid bookings, the confirmed and pending counts within the four that add up to all bookings, the number of available bikes and of active shops, each equal to its total exactly when all are available or active and 0 exactly when none are |
| AdminDashboardPage.UnpaidInMonthlyRevenueOnly | src/pages/admin/AdminDashboardPage.tsx:32-58 | an unpaid booking of this year adds its amount to its month's revenue but nothing to the revenue card |
| AdminDashboardPage.LabelsAsWrittenMisspelt | src/pages/admin/AdminDashboardPage.tsx:41-44 | the dashboard's labels are not the months' abbreviations: they differ from them in July and September only |
| Seqs.SortBy | src/contexts/BikeContext.tsx:131 | sorted ascending, a permutation, and stable: the elements with any one key keep their order |
| Seqs.SortDescendingBy | src/contexts/BikeContext.tsx:134 | sorted descending, a permutation, and stable in the same sense |
| Seqs.Insert | src/contexts/BikeContext.tsx:131 | the sorted insertion puts the element ahead of those with its key and keeps every key's order |
| Seqs.Distinct | src/pages/HomePage.tsx:55 | each value once, exactly the values of the input, in order of first appearance |
| Seqs.TakeFilterIsPrefix | src/pages/HomePage.tsx:57-59 | what a slice keeps of any filtered kind is the first of that kind |
| Tally.Grouped | src/pages/admin/AdminAnalyticsPage.tsx:160-171 | one entry per key, in order of first appearance, each holding the sum of the values filed under it |
| Tally.Accumulate | src/pages/admin/AdminAnalyticsPage.tsx:160-171 | the record loop followed by `Object.entries` yields Grouped's entries, whose values add up to the sum over all elements |
| Tally.AccumulatedIsGrouped | src/pages/admin/AdminAnalyticsPage.tsx:160-171 | what the loop holds after the last element is Grouped's reading |
| Tally.AccumulateStep | src/pages/admin/AdminAnalyticsPage.tsx:165-168 | one turn of the loop body keeps the keys met so far, their totals and their sum |
| Tally.GroupedKeysOnce | src/pages/admin/AdminAnalyticsPage.tsx:219-225 | every key that occurs has an entry, and no two entries share a name |
| Tally.GroupedSum | src/pages/admin/AdminAnalyticsPage.tsx:160-171 | the totals add up to the sum of all values: each value is counted under exactly one key |
| Tally.RenamedGroupedMembers | src/pages/admin/AdminAnalyticsPage.tsx:171-177 | however the entries are renamed and reordered, there is one per key, one for every element's key, and each is a renamed key total |
| Tally.Labelled | src/pages/admin/AdminAnalyticsPage.tsx:130-138 | point i pairs label i with value i, and the points add up to the values |
| Tally.MonthlyTotals | src/pages/admin/AdminAnalyticsPage.tsx:110-123 | slot m counts, and sums the amounts of, exactly the bookings created in month m of the year |
| Tally.MonthsMeaning | src/pages/admin/AdminAnalyticsPage.tsx:114-122 | the slots the loop fills are the per-month counts and amount sums |
| Tally.MonthCountsCoverYear | src/pages/admin/AdminAnalyticsPage.tsx:114-122 | the twelve counts add up to the number of bookings created in the year |
| Tally.MonthRevenueCoversYear | src/pages/admin/AdminAnalyticsPage.tsx:114-122 | the twelve revenues add up to the amounts of the bookings created in the year, paid or not |
| Tally.MonthNamesAbbreviate | src/pages/admin/AdminAnalyticsPage.tsx:125-128 | each label is the first three letters of its month's name, January first |
| Tally.MonthlyCharts | src/pages/admin/AdminAnalyticsPage.tsx:110-138 | twelve points labelled with the month abbreviations, each with its month's count or amount, adding up to the year's bookings and amounts |
| AdminUsersPage.FilteredUsers | src/pages/admin/AdminUsersPage.tsx:48-52 | exactly the users matching the search, in list order |
| AdminUsersPage.EmptySearchListsAll | src/pages/admin/AdminUsersPage.tsx:48-52 | an empty search lists every user, in order |
| AdminUsersPage.CheckAdd | src/pages/admin/AdminUsersPage.tsx:55-70 | refused for a missing field exactly when one of the four is empty; accepted exactly when all four are filled and no listed user has the email |
| AdminUsersPage.AddedUser | src/pages/admin/AdminUsersPage.tsx:72-80 | the form's fields, the id numbered after the page's list, created now |
| AdminUsersPage.AddKeepsEmailsUnique | src/pages/admin/AdminUsersPage.tsx:63-82 | an accepted add keeps every email of the page's list unique |
| AdminUsersPage.DeleteThenAddRepeatsId | src/pages/admin/AdminUsersPage.tsx:73 | after deleting any user but the last, the next user added gets an id already in use |
| AdminUsersPage.UsersReplaced | src/pages/admin/AdminUsersPage.tsx:103-105 | the same length, every user with the edited id replaced and every other user kept |
| AdminUsersPage.UsersWithout | src/pages/admin/AdminUsersPage.tsx:125 | no user with the id is left, every other user is kept, in order |
| AdminUsersPage.FirstReplaced | src/pages/admin/AdminUsersPage.tsx:110-113 | the same length, only the first user with the id replaced, nothing when there is none |
| AdminUsersPage.UniqueIdsReplaceAlike | src/pages/admin/AdminUsersPage.tsx:103-113 | with unique ids the page's and the shared list's updates agree |
| AdminUsersPage.UniqueIdsRemoveAlike | src/pages/admin/AdminUsersPage.tsx:125-132 | with unique ids the page's and the shared list's deletes agree |
| AdminUsersPage.RepeatedIdReplacesApart | src/pages/admin/AdminUsersPage.tsx:103-113 | with a repeated id the page replaces both copies while the shared list replaces only the first |
| AdminUsersPage.EditCanDuplicateEmail | src/pages/admin/AdminUsersPage.tsx:100-107 | the edit checks nothing: saving another user's email leaves two users with it |
| AdminUsersPage.AdminUsersView.constructor | src/pages/admin/AdminUsersPage.tsx:33-46 | the page's list starts as the shared list, with an empty form, no selection and every dialog closed |
| AdminUsersPage.AdminUsersView.HandleAddUser | src/pages/admin/AdminUsersPage.tsx:54-98 | the outcome is CheckAdd's; a refusal changes nothing, an acceptance appends the same new user to both lists, clears the form and closes the dialog |
| AdminUsersPage.AdminUsersView.OpenEditDialog | src/pages/admin/AdminUsersPage.tsx:276-281 | selects the user and opens the edit dialog, nothing else |
| AdminUsersPage.AdminUsersView.EditDetails | src/pages/admin/AdminUsersPage.tsx:364-387 | the selection gets the new name, email and phone, nothing else changes |
| AdminUsersPage.AdminUsersView.EditAdmin | src/pages/admin/AdminUsersPage.tsx:397-401 | on another user the box sets the administrator flag of the selection only |
| AdminUsersPage.AdminUsersView.HandleUpdateUser | src/pages/admin/AdminUsersPage.tsx:100-120 | nothing without a selection; otherwise UsersReplaced on the page's list, FirstReplaced on the shared list, both lengths kept, dialog closed |
| AdminUsersPage.AdminUsersView.OpenDeleteDialog | src/pages/admin/AdminUsersPage.tsx:288-294 | from an enabled button, selects the user and opens the confirmation |
| AdminUsersPage.AdminUsersView.HandleDeleteUser | src/pages/admin/AdminUsersPage.tsx:122-139 | nothing without a selection; otherwise UsersWithout on the page's list and the first match removed from the shared list, dialog closed |
| AdminUsersPage.SignedInUserSurvivesDelete | src/pages/admin/AdminUsersPage.tsx:294 | a delete opened from an enabled button keeps every listed user with the signed-in id |
| AdminBikesPage.FilteredBikes | src/pages/admin/AdminBikesPage.tsx:66-71 | exactly the bikes matching the search, shop name included, in catalogue order |
| AdminBikesPage.EmptySearchListsAll | src/pages/admin/AdminBikesPage.tsx:66-71 | an empty search lists the whole catalogue, in order |
| AdminBikesPage.StoredFeaturesClean | src/pages/admin/AdminBikesPage.tsx:351 | whatever is typed, at least one entry is stored and every entry is trimmed and comma-free |
| AdminBikesPage.TypedFeaturesStable | src/pages/admin/AdminBikesPage.tsx:350-351 | showing what was typed and reading it back stores the same list |
| AdminBikesPage.FeaturesRoundTrip | src/pages/admin/AdminBikesPage.tsx:350-351 | a non-empty list of trimmed comma-free entries survives being joined with ", " and split and trimmed again |
| AdminBikesPage.ReadBackOne | src/pages/admin/AdminBikesPage.tsx:350-351 | a single clean entry reads back as itself |
| AdminBikesPage.SplitLeadingSpace | src/pages/admin/AdminBikesPage.tsx:351 | a leading space in the field does not change what is stored |
| AdminBikesPage.ClearedFieldStoresBlank | src/pages/admin/AdminBikesPage.tsx:351 | a cleared field stores one empty feature, not an empty list |
| AdminBikesPage.ParsedFeatures | src/pages/admin/AdminBikesPage.tsx:85-90 | text is split on commas and trimmed, a list is kept, an absent value gives no features |
| AdminBikesPage.OrDefault | src/pages/admin/AdminBikesPage.tsx:96-102 | 0 and NaN give the default; any other number is kept |
| AdminBikesPage.AddedBike | src/pages/admin/AdminBikesPage.tsx:92-108 | the required fields as typed, a non-zero daily price, the parsed features, availability unless unticked, and a non-empty type |
| AdminBikesPage.RequiredOnlyDefaults | src/pages/admin/AdminBikesPage.tsx:48-108 | the opening form with only the required fields gives the documented defaults |
| AdminBikesPage.ZeroPriceRefusedNegativeAccepted | src/pages/admin/AdminBikesPage.tsx:76 | a daily price of 0 is refused while a negative one passes |
| AdminBikesPage.AdminBikesView.constructor | src/pages/admin/AdminBikesPage.tsx:44-64 | the opening form, nothing selected, every dialog closed |
| AdminBikesPage.AdminBikesView.HandleAddBike | src/pages/admin/AdminBikesPage.tsx:75-133 | added exactly when no required field is missing; then the catalogue gains exactly the new bike, its list is recomputed from the catalogue as it was, and the form resets; otherwise nothing changes; the selections, the filters and the other dialogs stay as they were |
| AdminBikesPage.AdminBikesView.OpenEditDialog | src/pages/admin/AdminBikesPage.tsx:446-447 | selects the bike and opens the edit dialog; the form and the other dialogs stay as they were |
| AdminBikesPage.AdminBikesView.EditFeatures | src/pages/admin/AdminBikesPage.tsx:752-753 | the selection's features become the typed text split and trimmed; nothing else changes |
| AdminBikesPage.AdminBikesView.HandleUpdateBike | src/pages/admin/AdminBikesPage.tsx:135-162 | nothing without a selection; otherwise the catalogue's update with every field of the selection; on success the stored bike equals the edited one, a catalogue selection of that id follows it, the list is recomputed and the dialog closes; the filters, the form and the other dialogs stay as they were |
| AdminBikesPage.AdminBikesView.OpenDeleteDialog | src/pages/admin/AdminBikesPage.tsx:458-459 | selects the bike and opens the confirmation; the form and the other dialogs stay as they were |
| AdminBikesPage.AdminBikesView.HandleDeleteBike | src/pages/admin/AdminBikesPage.tsx:164-180 | nothing without a selection; otherwise the catalogue's delete of the selected id; on success a catalogue selection of that id is cleared, the list is recomputed and the confirmation closes; the filters, the form and the other dialogs stay as they were |
| AdminShopsPage.FilteredShops | src/pages/admin/AdminShopsPage.tsx:56-60 | exactly the shops matching the search on name, area or address, in store order |
| AdminShopsPage.EmptySearchListsAll | src/pages/admin/AdminShopsPage.tsx:56-60 | an empty search lists every shop, in order |
| AdminShopsPage.SearchIgnoresCase | src/pages/admin/AdminShopsPage.tsx:56-60 | a term and its lower-case form find the same shops |
| AdminShopsPage.OrDefault | src/pages/admin/AdminShopsPage.tsx:75-82 | an empty text gives the default, any other text is kept |
| AdminShopsPage.AddedShop | src/pages/admin/AdminShopsPage.tsx:72-87 | the required fields as typed and non-empty, city and opening hours never empty, the other fields as typed, active unless unticked |
| AdminShopsPage.RequiredOnlyDefaults | src/pages/admin/AdminShopsPage.tsx:39-87 | the opening form with only the required fields gives Bangalore, 09:00 to 18:00, active and nothing else |
| AdminShopsPage.ClearedFieldsFallBack | src/pages/admin/AdminShopsPage.tsx:75-82 | a cleared city or opening hour falls back to its default |
| AdminShopsPage.AdminShopsView.constructor | src/pages/admin/AdminShopsPage.tsx:36-54 | the opening form, nothing selected, every dialog closed |
| AdminShopsPage.AdminShopsView.HandleAddShop | src/pages/admin/AdminShopsPage.tsx:62-111 | added exactly when no required field is missing; then the store gains exactly the new shop and the form resets, otherwise nothing changes; the selections and the other dialogs stay as they were |
| AdminShopsPage.AdminShopsView.OpenEditDialog | src/pages/admin/AdminShopsPage.tsx:363-364 | selects the shop and opens the edit dialog; the form and the other dialogs stay as they were |
| AdminShopsPage.AdminShopsView.EditSelected | src/pages/admin/AdminShopsPage.tsx:518-615 | the selection becomes the edited shop, its id unchanged; nothing else changes |
| AdminShopsPage.AdminShopsView.HandleUpdateShop | src/pages/admin/AdminShopsPage.tsx:113-129 | nothing without a selection; otherwise the store's update with the whole selection; on success the stored shop equals the edited one, a store selection of that id follows it and the dialog closes; the form and the other dialogs stay as they were |
| AdminShopsPage.AdminShopsView.OpenDeleteDialog | src/pages/admin/AdminShopsPage.tsx:375-376 | selects the shop and opens the confirmation; the form and the other dialogs stay as they were |
| AdminShopsPage.AdminShopsView.HandleDeleteShop | src/pages/admin/AdminShopsPage.tsx:131-147 | nothing without a selection; otherwise the store's delete of the selected id; on success a store selection of that id is cleared and the confirmation closes; the form and the other dialogs stay as they were |
| AdminReviewsPage.BikeName | src/pages/admin/AdminReviewsPage.tsx:62-65 | the name of the first listed bike with the id, and "Unknown Bike" when no bike has it |
| AdminReviewsPage.ShopName | src/pages/admin/AdminReviewsPage.tsx:67-70 | the catalogue's shop-name lookup: the first listed shop's name, and "Unknown Shop" when none has the id |
| AdminReviewsPage.FilteredReviews | src/pages/admin/AdminReviewsPage.tsx:91-103 | exactly the reviews whose bike name, shop name, reviewer or comment contains the search ignoring case and that lie on the selected tab, in store order |
| AdminReviewsPage.EmptySearchListsAll | src/pages/admin/AdminReviewsPage.tsx:91-103 | an empty search on the "all" tab lists every review, in order |
| AdminReviewsPage.UnknownBikeSearchable | src/pages/admin/AdminReviewsPage.tsx:62-65 | a review whose bike is gone is found by searching "Unknown Bike" in any case |
| AdminReviewsPage.UnknownShopSearchable | src/pages/admin/AdminReviewsPage.tsx:67-70 | a review whose shop is gone is found by searching "Unknown Shop" in any case |
| AdminReviewsPage.RatingTabsAreCounts | src/pages/admin/AdminReviewsPage.tsx:99-112 | with an empty search the high and low tabs list exactly the reviews the cards count |
| AdminReviewsPage.HighAndLowWithinTotal | src/pages/admin/AdminReviewsPage.tsx:110-112 | the high and low counts together never exceed the total |
| AdminReviewsPage.AverageRating | src/pages/admin/AdminReviewsPage.tsx:106-108 | 0 without reviews, otherwise the value that times the number of reviews gives the rating sum |
| AdminReviewsPage.AverageWithinRatings | src/pages/admin/AdminReviewsPage.tsx:106-108 | the average lies between the lowest and the highest rating given |
| AdminReviewsPage.ShareOfTotal | src/pages/admin/AdminReviewsPage.tsx:135 | between 0 and 100, 0 without reviews, otherwise the percentage of the total rounded to the nearest integer |
| AdminReviewsPage.AdminReviewsView.constructor | src/pages/admin/AdminReviewsPage.tsx:46-48 | nothing selected, both dialogs closed |
| AdminReviewsPage.AdminReviewsView.OpenDeleteDialog | src/pages/admin/AdminReviewsPage.tsx:246-249 | selects the review and opens the confirmation |
| AdminReviewsPage.AdminReviewsView.DeleteFromDetail | src/pages/admin/AdminReviewsPage.tsx:352-355 | closes the detail dialog and opens the confirmation, keeping the selection |
| AdminReviewsPage.AdminReviewsView.HandleDeleteReview | src/pages/admin/AdminReviewsPage.tsx:72-88 | nothing without a selection; otherwise the store's delete of the selected id, the confirmation closing on success |
| AdminReviewsPage.DeletedReviewIsGone | src/pages/admin/AdminReviewsPage.tsx:72-103 | after a successful delete no listed review, on any tab or search, has the deleted id |
| ShopsPage.Areas | src/pages/ShopsPage.tsx:20 | every shop's area, each once, and nothing else |
| ShopsPage.ShownShops | src/pages/ShopsPage.tsx:22-40 | exactly the shops matching a non-empty search on name, area or description and lying in the selected area unless it is "all", in store order |
| ShopsPage.OfferedAreaShowsShops | src/pages/ShopsPage.tsx:20-40 | every area the select offers shows at least one shop when the search is empty |
| ShopsPage.ClearedShowsAll | src/pages/ShopsPage.tsx:42-49 | an empty search with the area "all" shows every shop, in order |
| ShopsPage.ShopsView.constructor | src/pages/ShopsPage.tsx:15-17 | empty search, area "all", every shop shown |
| ShopsPage.ShopsView.Refilter | src/pages/ShopsPage.tsx:22-40 | the shown list becomes the filtered store, the filters unchanged |
| ShopsPage.ShopsView.SetSearchTerm | src/pages/ShopsPage.tsx:15-40 | the new term is stored and the list refiltered with it |
| ShopsPage.ShopsView.SelectArea | src/pages/ShopsPage.tsx:16-40 | the new area is stored and the list refiltered with it |
| ShopsPage.ShopsView.ClearFilters | src/pages/ShopsPage.tsx:42-49 | both filters reset and every shop is shown again |
| HomePage.HomeFilters | src/pages/HomePage.tsx:34-43 | the location only when typed; the date range only when picked, its start defaulting to now and its end to one day after the start; nothing else set |
| HomePage.HandleSearch | src/pages/HomePage.tsx:34-53 | the query carries the location when set and then both dates when a range is set, and the bikes page reads it back as exactly the home page's filters |
| HomePage.ReadQuery | src/pages/BikesPage.tsx:67-70 | a name the query lacks reads as empty text or no date |
| HomePage.ReadBackHome | src/pages/HomePage.tsx:45-52 | a query built from home filters reads back as those filters, or as no filter when none is set |
| HomePage.HomeBikeTypes | src/pages/HomePage.tsx:55 | every bike's type, each once, and nothing else, ordered by where each first occurs among the bikes |
| HomePage.TypesByFirstAppearance | src/pages/HomePage.tsx:55 | the distinct types come in the order in which the bikes first show them |
| HomePage.CategoryCards | src/pages/HomePage.tsx:166 | the first four distinct types, four when there are at least four; every type without a card first occurs after each type with one |
| HomePage.CategoryQueryFiltersType | src/pages/HomePage.tsx:183 | a category's button opens the bikes page filtering on the lower-cased type and nothing else |
| HomePage.FeaturedShops | src/pages/HomePage.tsx:57-59 | three shops, or all when fewer, sorted by rating highest first, drawn from the store, and no left-out shop rated above any featured one; of the shops with any one rating, those featured are the first in the store |
| HomePage.FeaturedAreTop | src/pages/HomePage.tsx:57-59 | the first three of a rating-sorted permutation hold the highest ratings |
| HomePage.PrefixOutranks | src/pages/HomePage.tsx:57-59 | a shop after a prefix of a rating-sorted list is rated no higher than each shop of the prefix |

## Left out

- Browser storage: loading the stores from and saving them to local storage, with JSON encoding and the error logging around it, is I/O. Each store starts from the list it is given.
- The seed data files and their contents; stores and catalogues are parameters.
- React scheduling. Effects that copy one state into another are modelled as method calls made at the point the effect would run. These are the bikes page's price span, the shops page's filter, and the catalogue's refilter after add, update and delete.
- BikesPage.BikesView.InitFromUrl: models one run of the URL effect. As written the effect re-runs after every render, because its dependency is a `URLSearchParams` built afresh each render (`BikesPage.tsx` lines 44 and 97); `RenderAsWritten` and `ApplyThenRenderAsWritten` state what that does to the filters (see Findings). The endless re-rendering the fresh objects set by each run would cause is not modelled, as the model has no render loop.
- BikeDetailPage.BookingRequest: a bike without pictures sends `undefined` as `bikeImage`; the model's strings cannot hold that and send "".
- Toasts, navigation, dialogs' open/close animation and all rendering. A navigation is modelled only where its query string carries data (home page search and category buttons).
- Floating point:
  - the one-decimal rounding (`toFixed(1)`) of review averages; averages are exact rationals;
  - percentages rounded with `Math.round` of a floating quotient; these are modelled by exact rational rounding half up, which agrees with the quotient of two integers except in cases of representation error;
  - the shops' latitude and longitude;
  - the dashboard's fabricated "+x% from last month" figures.
- Time:
  - `new Date()` is the parameter `now`;
  - the calendar year and month of an instant (`getFullYear`, `getMonth`) and month names are parameters, because they depend on the time zone;
  - `date-fns` `differenceInHours`/`differenceInDays` are whole-unit differences truncated toward zero, without daylight-saving corrections;
  - `addDays` adds a fixed 24 hours.
- Text.Lower: lower-cases the ASCII letters A to Z only. JavaScript's `toLowerCase` also maps other letters ('É' to 'é'), and some of them to more than one code unit. In the model, non-ASCII letters therefore compare case-sensitively in every case-insensitive search (the admin searches, the shops page, and the catalogue's location and type filters).
- URL encoding: query strings are modelled as decoded name/value pairs. The category buttons build their query as an unencoded template literal (`HomePage.tsx` line 183), so a type containing `&`, `=` or `#` would not read back as itself; the model does not capture that.
- `toISOString` and its parsing back from the URL: dates travel through the query string as instants.
- Locale formatting (`toLocaleString`, `Intl.DateTimeFormat`) and the "last 30 days" review figure and latest-review date on the reviews page, which are display only.
- The analytics page's CSV export (built through a DOM download link) and all chart rendering.
- `Object.entries` lists integer-like keys first, in numeric order. The model keeps every key in order of first appearance, which is what JavaScript does for the keys used here: ids with a letter prefix, and dates.
- The payment page: the payment gateway script, its callbacks, and the paisa conversion of the amount. `createPayment` is modelled with the gateway's answer as a parameter.
- Presentation-only and routing files, the login and signup forms (their checks sit in front of the modelled authentication calls), profile and settings pages whose handlers only raise toasts.
- Optional profile images of users and reviews.
- AdminUsersPage.AdminUsersView.constructor: the page's list starts out as the very array the authentication module holds. Until the page first replaces its list, a user registered elsewhere would therefore appear in it. The model copies the list's value at construction, so it does not capture that aliasing.
- AdminBikesPage.AdminBikesView.HandleUpdateBike: does not model the branch for a `features` field held as a string (`AdminBikesPage.tsx` lines 139-141), because the edit dialog always stores a list there and the model's bike type only holds lists.
- The bikes page's edit inputs other than features are not modelled one by one. The edited bike is the selection as a whole. The numeric inputs store `parseInt` of the text, which can be `NaN`; the model's integer fields cannot hold that.
- AdminBookingsPage.AdminBookingsView.OpenStatusDialog: requires the status button to be enabled (not completed, not cancelled), as the page disables it; a disabled button cannot be pressed.
- AdminUsersPage.AdminUsersView.OpenDeleteDialog: requires the delete button to be enabled (not the signed-in user's own row), as the page disables it.
- The view-details buttons of the admin pages only select a record for display and are modelled only where a dialog then acts on the selection.

## Findings

| source | as written | input that shows it | evidently intended | confidence | as-written member | corrected member |
|---|---|---|---|---|---|---|
| src/pages/admin/AdminDashboardPage.tsx:41-44 | the chart labels for July and September are "Tul" and "Spet" | any dashboard render: months 6 and 8 (from 0) are labelled "Tul" and "Spet" | the three-letter abbreviations "Jul" and "Sep", as the analytics page uses | high (not executed) | AdminDashboardPage.LabelsAsWrittenMisspelt | Tally.MonthNamesAbbreviate |
| src/pages/BikesPage.tsx:44-97 | the URL effect depends on a `URLSearchParams` built afresh on every render, so it runs after every render and, whenever the URL has a parameter, puts the URL's filters back | open `/bikes?type=scooter`, tick a brand, press "Apply": the next render's effect submits `{type: "scooter"}` and the brand is dropped | an effect keyed on `location.search`, run once per URL, so "Apply" and "Reset" keep what they submit | medium (not executed) | BikesPage.BikesView.ApplyThenRenderAsWritten | BikesPage.BikesView.ApplyThenRender |
