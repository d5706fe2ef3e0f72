/** The review records of the server. */
module ReviewModels {
  import opened Wrappers
  import opened UserModels

  /** `ReviewRating`: the integers 1 to 5. */
  type Rating = r: int | 1 <= r <= 5 witness 1

  function ParseRating(n: int): (r: Option<Rating>)
    ensures r.Some? <==> 1 <= n <= 5
    ensures r.Some? ==> r.value == n
  {
    if 1 <= n <= 5 then Some(n) else None
  }

  /** `ReviewUserToOrgIn` and `ReviewOrgToUserIn` share one shape. */
  datatype ReviewIn = ReviewIn(rating: Rating, comment: Option<string>)

  predicate ValidReviewIn(r: ReviewIn) {
    r.comment.Some? ==> |r.comment.value| <= 500
  }

  /** `ReviewIn` with the comment omitted. */
  function ReviewWithoutComment(rating: Rating): (r: ReviewIn)
    ensures r.comment.None? && ValidReviewIn(r)
  {
    ReviewIn(rating, None)
  }

  /** A stored review of either direction. */
  datatype ReviewDB = ReviewDB(id: ObjectId, eventId: ObjectId, userId: ObjectId, organisationId: ObjectId,
                               rating: Rating, comment: Option<string>, createdAt: int)

  /** `PublicReview`: names only, no ids, no direction and no date. */
  datatype PublicReview = PublicReview(eventName: string, userName: string, organisationName: string,
                                       rating: Rating, comment: Option<string>)
}
