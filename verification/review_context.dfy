/**
 * The review store: all reviews, the per-user/bike/shop lookups, add, update,
 * delete, and the average rating of a bike or a shop.
 *
 * Ratings are integers and the average is an exact rational; the rounding to
 * one decimal place is not modelled.
 */
module ReviewContext {
  import opened Wrappers
  import opened Types
  import opened Seqs
  import Text

  /** `review${n}`. */
  function ReviewId(n: nat): string { Text.Id("review", n) }

  function ReviewWithId(id: string): Review -> bool { (r: Review) => r.id == id }
  function ByUser(userId: string): Review -> bool { (r: Review) => r.userId == userId }
  function OfBike(bikeId: string): Review -> bool { (r: Review) => r.bikeId == bikeId }
  function OfShop(shopId: string): Review -> bool { (r: Review) => r.shopId == shopId }

  /** `userReviews(userId)`: the user's reviews, in store order. */
  function UserReviews(reviews: seq<Review>, userId: string): (r: seq<Review>)
    ensures forall i :: 0 <= i < |r| ==> r[i].userId == userId
    ensures forall i :: 0 <= i < |reviews| && reviews[i].userId == userId ==> reviews[i] in r
    ensures IsSubsequence(r, reviews)
  {
    FilterIsSubsequence(reviews, ByUser(userId));
    Filter(reviews, ByUser(userId))
  }

  /** `bikeReviews(bikeId)`: the bike's reviews, in store order. */
  function BikeReviews(reviews: seq<Review>, bikeId: string): (r: seq<Review>)
    ensures forall i :: 0 <= i < |r| ==> r[i].bikeId == bikeId
    ensures forall i :: 0 <= i < |reviews| && reviews[i].bikeId == bikeId ==> reviews[i] in r
    ensures IsSubsequence(r, reviews)
  {
    FilterIsSubsequence(reviews, OfBike(bikeId));
    Filter(reviews, OfBike(bikeId))
  }

  /** `shopReviews(shopId)`: the shop's reviews, in store order. */
  function ShopReviews(reviews: seq<Review>, shopId: string): (r: seq<Review>)
    ensures forall i :: 0 <= i < |r| ==> r[i].shopId == shopId
    ensures forall i :: 0 <= i < |reviews| && reviews[i].shopId == shopId ==> reviews[i] in r
    ensures IsSubsequence(r, reviews)
  {
    FilterIsSubsequence(reviews, OfShop(shopId));
    Filter(reviews, OfShop(shopId))
  }

  /** The review `addReview` appends: the caller's fields, a new id, and the creation time. */
  function NewReview(input: ReviewInput, id: string, now: Instant): (r: Review)
    ensures r.id == id && r.createdAt == now
    ensures r.userId == input.userId && r.userName == input.userName && r.bikeId == input.bikeId
    ensures r.shopId == input.shopId && r.rating == input.rating && r.comment == input.comment
  {
    Review(id, input.userId, input.userName, input.bikeId, input.shopId, input.rating,
           input.comment, now)
  }

  /** The outcome of `updateReview`: nothing for an unknown id; otherwise the patch merged into
      the first review with the id, whatever rating it carries, every other review as it was. */
  function ReviewUpdated(reviews: seq<Review>, id: string, patch: ReviewPatch): (r: Option<seq<Review>>)
    ensures r.None? <==> forall i :: 0 <= i < |reviews| ==> reviews[i].id != id
    ensures r.Some? ==>
      var k := FirstIndex(reviews, ReviewWithId(id));
      && |r.value| == |reviews| && reviews[k].id == id
      && r.value[k] == MergeReview(reviews[k], patch)
      && forall j :: 0 <= j < |reviews| && j != k ==> r.value[j] == reviews[j]
  {
    UpdateFirst(reviews, ReviewWithId(id), (r: Review) => MergeReview(r, patch))
  }

  /** The outcome of `deleteReview`: nothing for an unknown id; otherwise every review with the
      id is gone and every other review stays, in order. */
  function ReviewDeleted(reviews: seq<Review>, id: string): (r: Option<seq<Review>>)
    ensures r.None? <==> forall i :: 0 <= i < |reviews| ==> reviews[i].id != id
    ensures r.Some? ==>
      && |r.value| < |reviews|
      && (forall i :: 0 <= i < |r.value| ==> r.value[i].id != id)
      && (forall i :: 0 <= i < |reviews| && reviews[i].id != id ==> reviews[i] in r.value)
      && IsSubsequence(r.value, reviews)
  {
    RemoveAll(reviews, ReviewWithId(id))
  }

  /** The store itself checks no rating range: an update may store any rating. */
  lemma UpdateAcceptsAnyRating(reviews: seq<Review>, k: nat, rating: int)
    requires k < |reviews|
    requires forall j :: 0 <= j < k ==> reviews[j].id != reviews[k].id
    ensures ReviewUpdated(reviews, reviews[k].id, RatingCommentPatch(rating, reviews[k].comment)).Some?
    ensures ReviewUpdated(reviews, reviews[k].id, RatingCommentPatch(rating, reviews[k].comment)).value[k].rating == rating
  {
    var k' := FirstIndex(reviews, ReviewWithId(reviews[k].id));
    assert k' <= k;
  }

  // ---------------------------------------------------------------- average rating

  /** `getAverageRating`'s first argument. */
  datatype RatingTarget = BikeTarget | ShopTarget

  /** The reviews the average is taken over. */
  function Rated(reviews: seq<Review>, target: RatingTarget, id: string): seq<Review> {
    match target
    case BikeTarget => BikeReviews(reviews, id)
    case ShopTarget => ShopReviews(reviews, id)
  }

  function RatingOf(r: Review): int { r.rating }

  /** `getAverageRating` before rounding: 0 when nothing matches, otherwise the sum of the
      matching ratings divided by their number. */
  function AverageRating(reviews: seq<Review>, target: RatingTarget, id: string): (avg: real)
    ensures |Rated(reviews, target, id)| == 0 ==> avg == 0.0
    ensures |Rated(reviews, target, id)| > 0 ==>
      avg * (|Rated(reviews, target, id)| as real) == Sum(Rated(reviews, target, id), RatingOf) as real
  {
    var matching := Rated(reviews, target, id);
    if |matching| == 0 then 0.0
    else Sum(matching, RatingOf) as real / (|matching| as real)
  }

  /** Converting a product of integers to a real is multiplying the converted factors. */
  lemma {:induction false} RealOfProduct(n: nat, x: int)
    ensures (n * x) as real == (n as real) * (x as real)
    decreases n
  {
    if n > 0 {
      RealOfProduct(n - 1, x);
      assert n * x == (n - 1) * x + x;
    }
  }

  /** An integer total between n·lo and n·hi, divided by n, lies between lo and hi. */
  lemma QuotientBounds(total: int, n: nat, lo: int, hi: int)
    requires n > 0 && n * lo <= total <= n * hi
    ensures lo as real <= total as real / n as real <= hi as real
  {
    RealOfProduct(n, lo);
    RealOfProduct(n, hi);
    var q := total as real / n as real;
    assert q * n as real == total as real;
    assert (q - lo as real) * n as real == total as real - (n * lo) as real;
    assert (hi as real - q) * n as real == (n * hi) as real - total as real;
  }

  /** The average lies between the lowest and the highest matching rating; with ratings from
      1 to 5 it lies between 1 and 5. */
  lemma AverageWithinBounds(reviews: seq<Review>, target: RatingTarget, id: string, lo: int, hi: int)
    requires |Rated(reviews, target, id)| > 0
    requires forall i :: 0 <= i < |Rated(reviews, target, id)| ==> lo <= Rated(reviews, target, id)[i].rating <= hi
    ensures lo as real <= AverageRating(reviews, target, id) <= hi as real
  {
    var matching := Rated(reviews, target, id);
    SumBounds(matching, RatingOf, lo, hi);
    QuotientBounds(Sum(matching, RatingOf), |matching|, lo, hi);
  }

  class ReviewStore {
    var allReviews: seq<Review>

    constructor (reviews: seq<Review>)
      ensures allReviews == reviews
    {
      allReviews := reviews;
    }

    /** `addReview`: appends one review numbered after the current length. */
    method AddReview(review: ReviewInput, now: Instant)
      modifies this
      ensures allReviews == old(allReviews) + [NewReview(review, ReviewId(|old(allReviews)| + 1), now)]
    {
      var newReview := NewReview(review, ReviewId(|allReviews| + 1), now);
      allReviews := allReviews + [newReview];
    }

    /** `updateReview`: false and no change for an unknown id; otherwise the merge into the
        first match. */
    method UpdateReview(reviewId: string, updates: ReviewPatch) returns (ok: bool)
      modifies this
      ensures var r := ReviewUpdated(old(allReviews), reviewId, updates);
              ok == r.Some? && allReviews == (if ok then r.value else old(allReviews))
    {
      var reviewIndex := FirstIndex(allReviews, ReviewWithId(reviewId));
      if reviewIndex == -1 {
        return false;
      }
      var updatedReviews := allReviews;
      updatedReviews := updatedReviews[reviewIndex := MergeReview(updatedReviews[reviewIndex], updates)];
      allReviews := updatedReviews;
      ok := true;
    }

    /** `deleteReview`: false and no change for an unknown id; otherwise every review with the
        id removed. */
    method DeleteReview(reviewId: string) returns (ok: bool)
      modifies this
      ensures var r := ReviewDeleted(old(allReviews), reviewId);
              ok == r.Some? && allReviews == (if ok then r.value else old(allReviews))
    {
      var reviewIndex := FirstIndex(allReviews, ReviewWithId(reviewId));
      if reviewIndex == -1 {
        return false;
      }
      allReviews := Filter(allReviews, Not(ReviewWithId(reviewId)));
      ok := true;
    }
  }
}
