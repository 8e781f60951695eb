/**
 * The "My reviews" panel of the user dashboard: the signed-in user's reviews
 * split into the Bikes and Shops tabs, and the edit and delete dialogs.
 */
module UserReviewsPanel {
  import opened Wrappers
  import opened Types
  import opened Seqs
  import Text
  import ReviewContext

  /** The id the panel looks reviews up by: the signed-in user's, or "" for nobody. */
  function ViewerId(currentUser: Option<User>): string {
    if currentUser.Some? then currentUser.value.id else ""
  }

  /** `myReviews`: the reviews written under the viewer's id. */
  function MyReviews(reviews: seq<Review>, currentUser: Option<User>): (r: seq<Review>)
    ensures forall i :: 0 <= i < |r| ==> r[i].userId == ViewerId(currentUser)
    ensures forall i :: 0 <= i < |reviews| && reviews[i].userId == ViewerId(currentUser) ==> reviews[i] in r
    ensures IsSubsequence(r, reviews)
  {
    ReviewContext.UserReviews(reviews, ViewerId(currentUser))
  }

  /** The review names a listed bike. */
  predicate NamesBike(bikes: seq<Bike>, r: Review) {
    exists j :: 0 <= j < |bikes| && bikes[j].id == r.bikeId
  }

  /** The review names a listed shop. */
  predicate NamesShop(shops: seq<Shop>, r: Review) {
    exists j :: 0 <= j < |shops| && shops[j].id == r.shopId
  }

  /** `bikes.find(...)` succeeds for the review's bike. */
  function BikeFound(bikes: seq<Bike>): Review -> bool {
    (rv: Review) => Find(bikes, (b: Bike) => b.id == rv.bikeId).Some?
  }

  /** `shops.find(...)` succeeds for the review's shop. */
  function ShopFound(shops: seq<Shop>): Review -> bool {
    (rv: Review) => Find(shops, (s: Shop) => s.id == rv.shopId).Some?
  }

  /** The Bikes tab: my reviews whose bike is listed, in store order. */
  function BikeTab(reviews: seq<Review>, currentUser: Option<User>, bikes: seq<Bike>): (r: seq<Review>)
    ensures forall i :: 0 <= i < |r| ==> r[i].userId == ViewerId(currentUser) && NamesBike(bikes, r[i])
    ensures forall i :: 0 <= i < |reviews| && reviews[i].userId == ViewerId(currentUser) && NamesBike(bikes, reviews[i])
              ==> reviews[i] in r
    ensures IsSubsequence(r, reviews)
  {
    var mine := ReviewContext.ByUser(ViewerId(currentUser));
    FilterFilter(reviews, mine, BikeFound(bikes));
    FilterIsSubsequence(reviews, And(mine, BikeFound(bikes)));
    Filter(MyReviews(reviews, currentUser), BikeFound(bikes))
  }

  /** The Shops tab: my reviews whose shop is listed, in store order. */
  function ShopTab(reviews: seq<Review>, currentUser: Option<User>, shops: seq<Shop>): (r: seq<Review>)
    ensures forall i :: 0 <= i < |r| ==> r[i].userId == ViewerId(currentUser) && NamesShop(shops, r[i])
    ensures forall i :: 0 <= i < |reviews| && reviews[i].userId == ViewerId(currentUser) && NamesShop(shops, reviews[i])
              ==> reviews[i] in r
    ensures IsSubsequence(r, reviews)
  {
    var mine := ReviewContext.ByUser(ViewerId(currentUser));
    FilterFilter(reviews, mine, ShopFound(shops));
    FilterIsSubsequence(reviews, And(mine, ShopFound(shops)));
    Filter(MyReviews(reviews, currentUser), ShopFound(shops))
  }

  /** The tabs are not a partition: a review naming both a listed bike and a listed shop is
      on both, and one naming neither is on none. */
  lemma TabsOverlap(reviews: seq<Review>, currentUser: Option<User>, bikes: seq<Bike>, shops: seq<Shop>, i: nat)
    requires i < |reviews| && reviews[i].userId == ViewerId(currentUser)
    ensures NamesBike(bikes, reviews[i]) && NamesShop(shops, reviews[i]) ==>
              reviews[i] in BikeTab(reviews, currentUser, bikes) && reviews[i] in ShopTab(reviews, currentUser, shops)
    ensures !NamesBike(bikes, reviews[i]) && !NamesShop(shops, reviews[i]) ==>
              reviews[i] !in BikeTab(reviews, currentUser, bikes) && reviews[i] !in ShopTab(reviews, currentUser, shops)
  {
    var bt := BikeTab(reviews, currentUser, bikes);
    var st := ShopTab(reviews, currentUser, shops);
    assert forall j :: 0 <= j < |bt| ==> NamesBike(bikes, bt[j]);
    assert forall j :: 0 <= j < |st| ==> NamesShop(shops, st[j]);
  }

  /** Why an edit was not sent to the store. */
  datatype EditRejection = RatingOutOfRange | CommentRequired

  /** The edit dialog's checks, in order: the rating must be 1 to 5, then the comment must
      contain something other than white space. */
  function CheckEdit(rating: int, comment: string): (r: Option<EditRejection>)
    ensures r.None? <==> 1 <= rating <= 5 && Text.Trim(comment) != ""
    ensures r == Some(RatingOutOfRange) <==> rating < 1 || rating > 5
  {
    if rating < 1 || rating > 5 then Some(RatingOutOfRange)
    else if Text.Trim(comment) == "" then Some(CommentRequired)
    else None
  }

  /** A blank comment is one made of white space only. */
  lemma BlankCommentRejected(rating: int, comment: string)
    requires 1 <= rating <= 5
    ensures CheckEdit(rating, comment) == Some(CommentRequired)
            <==> forall i :: 0 <= i < |comment| ==> Text.IsWhitespace(comment[i])
  {
    Text.TrimEmptyIffBlank(comment);
  }

  /** What "Update" did. */
  datatype UpdateOutcome = NoReviewSelected | Rejected(why: EditRejection) | Sent(ok: bool)

  /** `handleUpdateReview`: with a selected review and an edit that passes the checks, only
      the rating and the comment go to the store's `updateReview`; otherwise the store is
      not called. */
  method HandleUpdateReview(store: ReviewContext.ReviewStore, selected: Option<Review>,
                            editedRating: int, editedComment: string)
    returns (outcome: UpdateOutcome)
    modifies store
    ensures selected.None? ==> outcome == NoReviewSelected
    ensures selected.Some? && CheckEdit(editedRating, editedComment).Some? ==>
              outcome == Rejected(CheckEdit(editedRating, editedComment).value)
    ensures !outcome.Sent? ==> store.allReviews == old(store.allReviews)
    ensures outcome.Sent? ==>
      && selected.Some? && CheckEdit(editedRating, editedComment).None?
      && var r := ReviewContext.ReviewUpdated(old(store.allReviews), selected.value.id,
                    RatingCommentPatch(editedRating, editedComment));
         outcome.ok == r.Some? && store.allReviews == (if r.Some? then r.value else old(store.allReviews))
  {
    if selected.None? {
      return NoReviewSelected;
    }
    if editedRating < 1 || editedRating > 5 {
      return Rejected(RatingOutOfRange);
    }
    if Text.Trim(editedComment) == "" {
      return Rejected(CommentRequired);
    }
    var success := store.UpdateReview(selected.value.id, RatingCommentPatch(editedRating, editedComment));
    return Sent(success);
  }

  /** An edit accepted by the dialog leaves a rating from 1 to 5 and a non-blank comment on
      the edited review, and changes nothing else about it. */
  lemma AcceptedEditIsInRange(reviews: seq<Review>, id: string, rating: int, comment: string)
    requires CheckEdit(rating, comment).None?
    requires exists i :: 0 <= i < |reviews| && reviews[i].id == id
    ensures var r := ReviewContext.ReviewUpdated(reviews, id, RatingCommentPatch(rating, comment));
            var k := FirstIndex(reviews, ReviewContext.ReviewWithId(id));
            && r.Some?
            && r.value[k] == reviews[k].(rating := rating, comment := comment)
            && 1 <= r.value[k].rating <= 5 && Text.Trim(r.value[k].comment) != ""
  {
    var k := FirstIndex(reviews, ReviewContext.ReviewWithId(id));
    RatingCommentPatchOnlyTouchesThose(reviews[k], rating, comment);
  }

  /** `handleConfirmDelete`: nothing without a selected review, otherwise exactly the
      store's `deleteReview` for it. */
  method HandleConfirmDelete(store: ReviewContext.ReviewStore, selected: Option<Review>) returns (ok: bool)
    modifies store
    ensures selected.None? ==> !ok && store.allReviews == old(store.allReviews)
    ensures selected.Some? ==>
      var r := ReviewContext.ReviewDeleted(old(store.allReviews), selected.value.id);
      ok == r.Some? && store.allReviews == (if ok then r.value else old(store.allReviews))
  {
    if selected.None? {
      return false;
    }
    ok := store.DeleteReview(selected.value.id);
  }
}
