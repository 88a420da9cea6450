/** The review handlers (src/controllers/reviewController.ts). Their errors carry no HTTP code.
    The caller's id comes from the authentication layer. */
module ReviewController {
  import opened Common
  import opened HelperModel
  import opened UserModel
  import opened ReviewModel
  import opened Db

  /** The arguments `createReview` hands to `Review.createReview` once every check has passed. */
  datatype ReviewRequest = ReviewRequest(isHelper: bool, userId: Id, taskId: Id, helperId: Id,
                                         rating: int, review: string)

  /** `createReview`: checks the request and maps the caller and the reviewee onto the user and
      helper sides (a helper reviews a user, a user reviews a helper). The rating range is checked
      only after the user, the task and the helper are found. The result is what the handler
      passes to `Review.createReview`, which persists the review; nothing is stored here. */
  method CreateReview(db: Store, caller: Id, isHelper: bool, reviewee: IdArg, taskArg: IdArg,
                      rating: int, review: string)
    returns (r: Result<ReviewRequest>)
    ensures !(reviewee.Given? && taskArg.Given? && rating != 0) ==>
              r == Err(Uncoded("Please provide all required fields"))
    ensures reviewee.Given? && taskArg.Given? && rating != 0 ==>
              var userId := if isHelper then reviewee.id else caller;
              var helperId := if isHelper then caller else reviewee.id;
              && (userId !in db.users ==> r == Err(Uncoded("User not found")))
              && (userId in db.users && taskArg.id !in db.tasks ==>
                    r == Err(Uncoded("Task not found")))
              && (userId in db.users && taskArg.id in db.tasks && helperId !in db.helpers ==>
                    r == Err(Uncoded("Helper not found")))
              && (userId in db.users && taskArg.id in db.tasks && helperId in db.helpers
                  && (rating < 1 || rating > 5) ==>
                    r == Err(Uncoded("Rating must be between 1 and 5")))
              && (userId in db.users && taskArg.id in db.tasks && helperId in db.helpers
                  && 1 <= rating <= 5 ==>
                    r == Ok(ReviewRequest(isHelper, userId, taskArg.id, helperId, rating, review)))
    ensures r.Ok? ==>
              && reviewee.Given? && taskArg.Given?
              && r.value.isHelper == isHelper && r.value.taskId == taskArg.id
              && r.value.rating == rating && r.value.review == review
              && 1 <= r.value.rating <= 5
              && r.value.userId in db.users && r.value.taskId in db.tasks
              && r.value.helperId in db.helpers
    ensures r.Ok? && isHelper ==> r.value.userId == reviewee.id && r.value.helperId == caller
    ensures r.Ok? && !isHelper ==> r.value.userId == caller && r.value.helperId == reviewee.id
  {
    if !(reviewee.Given? && taskArg.Given? && rating != 0) {
      return Err(Uncoded("Please provide all required fields"));
    }
    var userId := if isHelper then reviewee.id else caller;
    var helperId := if isHelper then caller else reviewee.id;
    if userId !in db.users {
      return Err(Uncoded("User not found"));
    }
    if taskArg.id !in db.tasks {
      return Err(Uncoded("Task not found"));
    }
    if helperId !in db.helpers {
      return Err(Uncoded("Helper not found"));
    }
    if rating < 1 || rating > 5 {
      return Err(Uncoded("Rating must be between 1 and 5"));
    }
    r := Ok(ReviewRequest(isHelper, userId, taskArg.id, helperId, rating, review));
  }

  /** The increment `updateReview` applies to a counter: the new rating minus the rating the
      review had before the update. An omitted rating adds nothing here. */
  function RatingDelta(rating: Option<int>, previous: int): int
  {
    if rating.Some? then rating.value - previous else 0
  }

  /** The rating a review keeps after `updateReview`: a truthy new rating replaces it. */
  function UpdatedRating(rating: Option<int>, previous: int): int
  {
    if rating.Some? && rating.value != 0 then rating.value else previous
  }

  /** Two successive `updateReview` calls, the second starting from the rating the first left,
      move a counter by the final rating minus the original one, provided neither request
      carries rating 0. A request with rating 0 lowers the counter by the rating it finds while
      the review keeps that rating, so each such request shifts the sum further down. */
  lemma RatingDeltasTelescope(r1: Option<int>, r2: Option<int>, previous: int)
    ensures r1 != Some(0) && r2 != Some(0) ==>
              RatingDelta(r1, previous) + RatingDelta(r2, UpdatedRating(r1, previous))
              == UpdatedRating(r2, UpdatedRating(r1, previous)) - previous
    ensures r1 == Some(0) && r2 != Some(0) ==>
              RatingDelta(r1, previous) + RatingDelta(r2, UpdatedRating(r1, previous))
              == UpdatedRating(r2, UpdatedRating(r1, previous)) - 2 * previous
    ensures r1 != Some(0) && r2 == Some(0) ==>
              RatingDelta(r1, previous) + RatingDelta(r2, UpdatedRating(r1, previous)) == -previous
    ensures r1 == Some(0) && r2 == Some(0) ==>
              RatingDelta(r1, previous) + RatingDelta(r2, UpdatedRating(r1, previous))
              == UpdatedRating(r2, UpdatedRating(r1, previous)) - 3 * previous
  {
  }

  /** A counter that `updateReview` moves by `RatingDelta` keeps its distance to the review's
      rating, except when the request's rating is 0: then the counter drops by the old rating
      while the review keeps it. */
  lemma UpdateKeepsCounterInStep(counter: int, rating: Option<int>, previous: int)
    ensures rating != Some(0) ==>
              (counter + RatingDelta(rating, previous)) - UpdatedRating(rating, previous)
              == counter - previous
    ensures rating == Some(0) ==>
              (counter + RatingDelta(rating, previous)) - UpdatedRating(rating, previous)
              == counter - 2 * previous
  {
  }

  /** The in-place edits of `updateReview` on a request whose rating passed the range check. */
  method Revise(rv: Review, rating: Option<int>, review: string)
    modifies rv`rating, rv`review
    ensures rv.rating == UpdatedRating(rating, old(rv.rating))
    ensures rv.review == (if review != "" then review else old(rv.review))
  {
    rv.rating := UpdatedRating(rating, rv.rating);
    if review != "" {
      rv.review := review;
    }
  }

  /** `updateReview`: a truthy rating outside 1..5 is rejected before anything changes; otherwise
      the rating and a truthy text replace the old ones, and `new - old` (taken from the rating
      before the update) is added to the User's `totalRating` when the reviewer is a helper, to
      the Helper's otherwise. A counter owner that is not stored is left alone, as
      `findByIdAndUpdate` does. */
  method UpdateReview(db: Store, reviewArg: IdArg, rating: Option<int>, review: string)
    returns (r: Outcome)
    requires db.Valid()
    modifies db.reviews.Values, db.users.Values, db.helpers.Values
    ensures db.Valid() && unchanged(db)
    ensures !reviewArg.Given? ==> r == Fail(Uncoded("Please provide reviewId to update"))
    ensures reviewArg.Given? && !ReviewFound(db, reviewArg) ==> r == Fail(Uncoded("Review not found"))
    ensures ReviewFound(db, reviewArg) && rating.Some? && rating.value != 0
            && (rating.value < 1 || rating.value > 5) ==>
              r == Fail(Uncoded("Rating must be between 1 and 5"))
    ensures r.Pass? <==>
              ReviewFound(db, reviewArg)
              && (rating.None? || rating.value == 0 || 1 <= rating.value <= 5)
    ensures r.Fail? ==>
              && (forall id | id in db.reviews :: unchanged(db.reviews[id]))
              && (forall id | id in db.users :: unchanged(db.users[id]))
              && (forall id | id in db.helpers :: unchanged(db.helpers[id]))
    ensures r.Pass? ==>
              var rv := db.reviews[reviewArg.id];
              var delta := RatingDelta(rating, old(rv.rating));
              && (forall id | id in db.reviews && id != reviewArg.id :: unchanged(db.reviews[id]))
              && rv.rating == UpdatedRating(rating, old(rv.rating))
              && rv.review == (if review != "" then review else old(rv.review))
              && rv.userId == old(rv.userId) && rv.taskId == old(rv.taskId)
              && rv.helperId == old(rv.helperId) && rv.reviewerRole == old(rv.reviewerRole)
              && (UpdateCounterParty(rv.reviewerRole) == UserParty ==>
                    && (forall id | id in db.helpers :: unchanged(db.helpers[id]))
                    && (forall id | id in db.users && id != rv.userId :: unchanged(db.users[id]))
                    && (rv.userId in db.users ==>
                          var u := db.users[rv.userId];
                          && u.totalRating == old(u.totalRating) + delta
                          && u.totalHelperRated == old(u.totalHelperRated)
                          && UserModel.OnlyCountersChanged(u)))
              && (UpdateCounterParty(rv.reviewerRole) == HelperParty ==>
                    && (forall id | id in db.users :: unchanged(db.users[id]))
                    && (forall id | id in db.helpers && id != rv.helperId :: unchanged(db.helpers[id]))
                    && (rv.helperId in db.helpers ==>
                          var h := db.helpers[rv.helperId];
                          && h.totalRating == old(h.totalRating) + delta
                          && h.totalPeopleRated == old(h.totalPeopleRated)
                          && HelperModel.OnlyCountersChanged(h)))
  {
    if !reviewArg.Given? {
      return Fail(Uncoded("Please provide reviewId to update"));
    }
    if !ReviewFound(db, reviewArg) {
      return Fail(Uncoded("Review not found"));
    }
    var rv := db.reviews[reviewArg.id];
    var delta := RatingDelta(rating, rv.rating);
    if rating.Some? && rating.value != 0 && (rating.value < 1 || rating.value > 5) {
      return Fail(Uncoded("Rating must be between 1 and 5"));
    }
    Revise(rv, rating, review);
    if UpdateCounterParty(rv.reviewerRole) == UserParty {
      IncUserCounters(db, rv.userId, 0, delta);
    } else {
      IncHelperCounters(db, rv.helperId, 0, delta);
    }
    r := Pass;
  }

  /** `deleteReview`: only one of the review's two parties may delete it. The counters are then
      decremented (the Helper's `totalPeopleRated` by 1 and `totalRating` by the rating when the
      reviewer is a helper, the User's `totalHelperRated` and `totalRating` otherwise) and the
      review is removed. */
  method DeleteReview(db: Store, caller: Id, reviewArg: IdArg) returns (r: Outcome)
    requires db.Valid()
    modifies db`reviews, db.users.Values, db.helpers.Values
    ensures db.Valid()
    ensures db.tasks == old(db.tasks) && db.users == old(db.users) && db.helpers == old(db.helpers)
    ensures !reviewArg.Given? ==> r == Fail(Uncoded("Please provide reviewId to delete"))
    ensures reviewArg.Given? && !old(ReviewFound(db, reviewArg)) ==>
              r == Fail(Uncoded("Review not found"))
    ensures old(ReviewFound(db, reviewArg))
            && caller != old(db.reviews[reviewArg.id].userId)
            && caller != old(db.reviews[reviewArg.id].helperId) ==>
              r == Fail(Uncoded("You are not authorized to delete this review"))
    ensures r.Pass? <==>
              && old(ReviewFound(db, reviewArg))
              && (caller == old(db.reviews[reviewArg.id].userId)
                  || caller == old(db.reviews[reviewArg.id].helperId))
    ensures r.Fail? ==>
              && db.reviews == old(db.reviews)
              && (forall id | id in db.users :: unchanged(db.users[id]))
              && (forall id | id in db.helpers :: unchanged(db.helpers[id]))
    ensures r.Pass? ==>
              var rv := old(db.reviews[reviewArg.id]);
              && db.reviews == old(db.reviews) - {reviewArg.id}
              && (DeleteCounterParty(rv.reviewerRole) == HelperParty ==>
                    && (forall id | id in db.users :: unchanged(db.users[id]))
                    && (forall id | id in db.helpers && id != rv.helperId :: unchanged(db.helpers[id]))
                    && (rv.helperId in db.helpers ==>
                          var h := db.helpers[rv.helperId];
                          && h.totalPeopleRated == old(h.totalPeopleRated) - 1
                          && h.totalRating == old(h.totalRating) - rv.rating
                          && HelperModel.OnlyCountersChanged(h)))
              && (DeleteCounterParty(rv.reviewerRole) == UserParty ==>
                    && (forall id | id in db.helpers :: unchanged(db.helpers[id]))
                    && (forall id | id in db.users && id != rv.userId :: unchanged(db.users[id]))
                    && (rv.userId in db.users ==>
                          var u := db.users[rv.userId];
                          && u.totalHelperRated == old(u.totalHelperRated) - 1
                          && u.totalRating == old(u.totalRating) - rv.rating
                          && UserModel.OnlyCountersChanged(u)))
  {
    if !reviewArg.Given? {
      return Fail(Uncoded("Please provide reviewId to delete"));
    }
    if !ReviewFound(db, reviewArg) {
      return Fail(Uncoded("Review not found"));
    }
    var rv := db.reviews[reviewArg.id];
    if caller != rv.userId && caller != rv.helperId {
      return Fail(Uncoded("You are not authorized to delete this review"));
    }
    if DeleteCounterParty(rv.reviewerRole) == HelperParty {
      IncHelperCounters(db, rv.helperId, -1, -rv.rating);
    } else {
      IncUserCounters(db, rv.userId, -1, -rv.rating);
    }
    db.reviews := db.reviews - {reviewArg.id};
    r := Pass;
  }
}
