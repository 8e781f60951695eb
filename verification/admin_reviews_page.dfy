/**
 * The administrators' reviews page: the bike and shop names shown beside each
 * review, the search box and the rating tabs, the summary cards (total, high
 * and low rating counts and shares, the average) and the delete dialog.
 */
module AdminReviewsPage {
  import opened Wrappers
  import opened Types
  import opened Seqs
  import opened Text
  import BikeContext
  import ReviewContext
  import AdminAnalyticsPage

  // ---------------------------------------------------------------- names

  /** `getBikeName`: the name of the first listed bike with the id, or "Unknown Bike". */
  function BikeName(bikes: seq<Bike>, bikeId: string): (name: string)
    ensures (forall j :: 0 <= j < |bikes| ==> bikes[j].id != bikeId) ==> name == "Unknown Bike"
    ensures forall j :: (0 <= j < |bikes| && bikes[j].id == bikeId
                         && forall i :: 0 <= i < j ==> bikes[i].id != bikeId) ==> name == bikes[j].name
  {
    var bike := Find(bikes, (b: Bike) => b.id == bikeId);
    if bike.Some? then bike.value.name else "Unknown Bike"
  }

  /** `getShopName` is the catalogue's shop lookup: the first listed shop's name, or
      "Unknown Shop". */
  function ShopName(shops: seq<Shop>, shopId: string): (name: string)
    ensures name == BikeContext.ShopNameById(shops, shopId)
    ensures (forall j :: 0 <= j < |shops| ==> shops[j].id != shopId) ==> name == "Unknown Shop"
  {
    var shop := Find(shops, (s: Shop) => s.id == shopId);
    if shop.Some? then shop.value.name else "Unknown Shop"
  }

  // ---------------------------------------------------------------- search and tabs

  /** The search: the bike's and the shop's displayed names, the reviewer's name and the
      comment, all ignoring case. */
  predicate MatchesSearch(bikes: seq<Bike>, shops: seq<Shop>, r: Review, term: string) {
    || ContainsIgnoreCase(BikeName(bikes, r.bikeId), term)
    || ContainsIgnoreCase(ShopName(shops, r.shopId), term)
    || ContainsIgnoreCase(r.userName, term)
    || ContainsIgnoreCase(r.comment, term)
  }

  predicate IsHigh(r: Review) { r.rating >= 4 }
  predicate IsLow(r: Review) { r.rating <= 2 }

  /** The selected tab: "high-rating" keeps ratings from 4, "low-rating" ratings up to 2,
      and "all" or any other value keeps every review. */
  predicate OnTab(r: Review, tab: string) {
    if tab == "high-rating" then IsHigh(r)
    else if tab == "low-rating" then IsLow(r)
    else true
  }

  /** `filteredReviews`: the reviews matching the search and on the tab, in store order. */
  function FilteredReviews(all: seq<Review>, bikes: seq<Bike>, shops: seq<Shop>,
                           term: string, tab: string): (r: seq<Review>)
    ensures forall i :: 0 <= i < |r| ==> r[i] in all && MatchesSearch(bikes, shops, r[i], term) && OnTab(r[i], tab)
    ensures forall i :: 0 <= i < |all| && MatchesSearch(bikes, shops, all[i], term) && OnTab(all[i], tab)
                    ==> all[i] in r
    ensures IsSubsequence(r, all)
  {
    var p := (x: Review) => MatchesSearch(bikes, shops, x, term) && OnTab(x, tab);
    FilterIsSubsequence(all, p);
    Filter(all, p)
  }

  /** An empty search box on the "all" tab lists every review, in order. */
  lemma EmptySearchListsAll(all: seq<Review>, bikes: seq<Bike>, shops: seq<Shop>)
    ensures FilteredReviews(all, bikes, shops, "", "all") == all
  {
    forall i | 0 <= i < |all| ensures MatchesSearch(bikes, shops, all[i], "") {
      ContainsEmpty(Lower(BikeName(bikes, all[i].bikeId)));
    }
    FilterKeepsAll(all, (x: Review) => MatchesSearch(bikes, shops, x, "") && OnTab(x, "all"));
  }

  /** A review whose bike is no longer listed is shown under "Unknown Bike", so searching for
      that label, in any case, finds it. */
  lemma UnknownBikeSearchable(all: seq<Review>, bikes: seq<Bike>, shops: seq<Shop>, k: nat, term: string)
    requires k < |all| && forall j :: 0 <= j < |bikes| ==> bikes[j].id != all[k].bikeId
    requires Lower(term) == Lower("Unknown Bike")
    ensures all[k] in FilteredReviews(all, bikes, shops, term, "all")
  {
    ContainsSelf(Lower("Unknown Bike"));
  }

  /** Likewise a review whose shop is no longer listed is found by searching "Unknown Shop". */
  lemma UnknownShopSearchable(all: seq<Review>, bikes: seq<Bike>, shops: seq<Shop>, k: nat, term: string)
    requires k < |all| && forall j :: 0 <= j < |shops| ==> shops[j].id != all[k].shopId
    requires Lower(term) == Lower("Unknown Shop")
    ensures all[k] in FilteredReviews(all, bikes, shops, term, "all")
  {
    ContainsSelf(Lower("Unknown Shop"));
  }

  /** With an empty search, the high and low tabs list exactly the reviews the cards count. */
  lemma RatingTabsAreCounts(all: seq<Review>, bikes: seq<Bike>, shops: seq<Shop>)
    ensures FilteredReviews(all, bikes, shops, "", "high-rating") == Filter(all, IsHigh)
    ensures FilteredReviews(all, bikes, shops, "", "low-rating") == Filter(all, IsLow)
  {
    forall i | 0 <= i < |all| ensures MatchesSearch(bikes, shops, all[i], "") {
      ContainsEmpty(Lower(BikeName(bikes, all[i].bikeId)));
    }
    FilterSamePredicate(all, (x: Review) => MatchesSearch(bikes, shops, x, "") && OnTab(x, "high-rating"), IsHigh);
    FilterSamePredicate(all, (x: Review) => MatchesSearch(bikes, shops, x, "") && OnTab(x, "low-rating"), IsLow);
  }

  // ---------------------------------------------------------------- statistics

  /** `highRatingCount` and `lowRatingCount`: no review is both, so together they count no
      more than `totalReviews`. */
  lemma HighAndLowWithinTotal(all: seq<Review>)
    ensures Count(all, IsHigh) + Count(all, IsLow) <= |all|
  {
    CountDisjoint(all, IsHigh, IsLow);
  }

  /** `averageRating` before `toFixed(1)`: 0 without reviews, otherwise the sum of the
      ratings over their number. */
  function AverageRating(all: seq<Review>): (avg: real)
    ensures |all| == 0 ==> avg == 0.0
    ensures |all| > 0 ==> avg * (|all| as real) == Sum(all, ReviewContext.RatingOf) as real
  {
    if |all| > 0 then Sum(all, ReviewContext.RatingOf) as real / (|all| as real) else 0.0
  }

  /** The average lies between the lowest and the highest rating given. */
  lemma AverageWithinRatings(all: seq<Review>, lo: int, hi: int)
    requires |all| > 0 && forall i :: 0 <= i < |all| ==> lo <= all[i].rating <= hi
    ensures lo as real <= AverageRating(all) <= hi as real
  {
    SumBounds(all, ReviewContext.RatingOf, lo, hi);
    ReviewContext.QuotientBounds(Sum(all, ReviewContext.RatingOf), |all|, lo, hi);
  }

  /** The "% of total" line of the high and low cards: the count over the total in percent,
      rounded to the nearest integer; a division by zero gives NaN, which `|| 0` turns into 0. */
  function ShareOfTotal(all: seq<Review>, p: Review -> bool): (r: int)
    ensures 0 <= r <= 100
    ensures |all| == 0 ==> r == 0
    ensures |all| > 0 ==>
              var c := Count(all, p);
              2 * r * |all| - |all| <= 200 * c < 2 * r * |all| + |all|
  {
    if |all| > 0 then
      var c := Count(all, p);
      var r := AdminAnalyticsPage.RoundDiv(100 * c, |all|);
      AdminAnalyticsPage.RateBounds(c, |all|, r);
      r
    else 0
  }

  // ---------------------------------------------------------------- dialogs

  /** The page's dialog state. */
  class AdminReviewsView {
    var selectedReview: Option<Review>
    var isViewReviewOpen: bool
    var isDeleteReviewOpen: bool

    constructor ()
      ensures selectedReview == None && !isViewReviewOpen && !isDeleteReviewOpen
    {
      selectedReview := None;
      isViewReviewOpen := false;
      isDeleteReviewOpen := false;
    }

    /** The row's delete button: selects the review and opens the confirmation. */
    method OpenDeleteDialog(r: Review)
      modifies this
      ensures selectedReview == Some(r) && isDeleteReviewOpen
      ensures isViewReviewOpen == old(isViewReviewOpen)
    {
      selectedReview := Some(r);
      isDeleteReviewOpen := true;
    }

    /** The detail dialog's delete button: swaps the detail dialog for the confirmation,
        keeping the selection. */
    method DeleteFromDetail()
      modifies this
      ensures !isViewReviewOpen && isDeleteReviewOpen && selectedReview == old(selectedReview)
    {
      isViewReviewOpen := false;
      isDeleteReviewOpen := true;
    }

    /** `handleDeleteReview`: nothing without a selection; otherwise the store's
        `deleteReview` on the selected id, and the confirmation closes when it succeeds. The
        selection is kept either way. */
    method HandleDeleteReview(store: ReviewContext.ReviewStore) returns (ok: bool)
      modifies this, store
      ensures old(selectedReview).None? ==> !ok && store.allReviews == old(store.allReviews)
      ensures old(selectedReview).Some? ==>
        var r := ReviewContext.ReviewDeleted(old(store.allReviews), old(selectedReview).value.id);
        ok == r.Some? && store.allReviews == (if ok then r.value else old(store.allReviews))
      ensures isDeleteReviewOpen == (old(isDeleteReviewOpen) && !ok)
      ensures selectedReview == old(selectedReview) && isViewReviewOpen == old(isViewReviewOpen)
    {
      if selectedReview.None? {
        return false;
      }
      ok := store.DeleteReview(selectedReview.value.id);
      if ok {
        isDeleteReviewOpen := false;
      }
    }
  }

  /** Deleting the selected review takes it off every tab and out of every search. */
  lemma DeletedReviewIsGone(all: seq<Review>, id: string, bikes: seq<Bike>, shops: seq<Shop>,
                            term: string, tab: string)
    requires ReviewContext.ReviewDeleted(all, id).Some?
    ensures forall r :: r in FilteredReviews(ReviewContext.ReviewDeleted(all, id).value, bikes, shops, term, tab)
                     ==> r.id != id
  {
    var rest := ReviewContext.ReviewDeleted(all, id).value;
    assert forall i :: 0 <= i < |rest| ==> rest[i].id != id;
    var shown := FilteredReviews(rest, bikes, shops, term, tab);
    assert forall i :: 0 <= i < |shown| ==> shown[i] in rest;
  }
}
