/** Reviews in both directions: a volunteer rating the organisation of an event it worked at,
    and an organisation rating an accepted volunteer; their listings and averages. */
module ReviewService {
  import opened Wrappers
  import opened Text
  import opened UserModels
  import opened ApplicationModels
  import opened EventModels
  import opened ReviewModels
  import opened Database
  import Sorting

  const EventMissing := "Event ne postoji."
  const EventNotEnded := "Event još nije završen."
  const UserNotVolunteer := "Ne možeš oceniti — nisi volontirao na ovom eventu."
  const UserAlreadyRated := "Već ste ocenili organizaciju za ovaj događaj."
  const VolunteerNotAccepted := "Korisnik nije bio prihvaćen volonter na ovom eventu."
  const VolunteerAlreadyRated := "Već ste ocenili ovog korisnika za ovaj događaj."

  /** Whether a user→organisation review of `userId` for `eventId` is stored. */
  predicate HasUserToOrgReview(st: StoreState, userId: ObjectId, eventId: ObjectId) {
    FindFirst(st.reviews, (r: StoredReview) => r.userId == userId && r.eventId == eventId && r.direction == UserToOrg).Some?
  }

  /** Whether an organisation→user review of `userId` by `orgId` for `eventId` is stored. */
  predicate HasOrgToUserReview(st: StoreState, userId: ObjectId, orgId: ObjectId, eventId: ObjectId) {
    FindFirst(st.reviews, (r: StoredReview) =>
      r.userId == userId && r.organisationId == AsObjectId(orgId) && r.eventId == eventId && r.direction == OrgToUser).Some?
  }

  /** The guards both directions share, in order: the event exists, it has ended, and the user
      holds an accepted application for it. On success, the event. */
  function EligibleEvent(st: StoreState, eventId: ObjectId, userId: ObjectId, now: int, notAccepted: string)
    : (r: Result<EventDB, HttpError>)
    ensures r.Success? <==>
      (FindEvent(st, eventId).Some? && FindEvent(st, eventId).value.data.endDate <= now
       && FindApplicationOf(st, userId, eventId).Some? && FindApplicationOf(st, userId, eventId).value.status == Accepted)
    ensures r.Success? ==> Some(r.value) == FindEvent(st, eventId)
    ensures FindEvent(st, eventId).None? ==> r == Failure(HttpError(404, EventMissing))
    ensures FindEvent(st, eventId).Some? && FindEvent(st, eventId).value.data.endDate > now ==>
      r == Failure(HttpError(400, EventNotEnded))
    ensures r.Failure? && r.error.status != 404 && r.error.detail != EventNotEnded ==> r.error == HttpError(400, notAccepted)
  {
    match FindEvent(st, eventId)
    case None => Failure(HttpError(404, EventMissing))
    case Some(ev) =>
      if ev.data.endDate > now then Failure(HttpError(400, EventNotEnded))
      else
        var app := FindApplicationOf(st, userId, eventId);
        if app.None? || app.value.status != Accepted then Failure(HttpError(400, notAccepted))
        else Success(ev)
  }

  /** `create_user_to_org_review` as written: the review stores the organisation id as the text
      that `EventRepository.find_by_id` turned it into. */
  function CreateUserToOrgAsWritten(st: StoreState, eventId: ObjectId, userId: ObjectId, rating: Rating,
                                    comment: Option<string>, newId: ObjectId, now: int): (o: Outcome<ObjectId>)
    ensures o.result.Success? <==>
      EligibleEvent(st, eventId, userId, now, UserNotVolunteer).Success? && !HasUserToOrgReview(st, userId, eventId)
    ensures o.result.Success? ==>
      o.state == st.(reviews := st.reviews + [StoredReview(newId, eventId, userId,
        AsText(FindEvent(st, eventId).value.organisationId), rating, comment, UserToOrg, now)])
  {
    match EligibleEvent(st, eventId, userId, now, UserNotVolunteer)
    case Failure(e) => Outcome(st, Failure(e))
    case Success(ev) =>
      if HasUserToOrgReview(st, userId, eventId) then Outcome(st, Failure(HttpError(400, UserAlreadyRated)))
      else
        var review := StoredReview(newId, eventId, userId, AsText(ev.organisationId), rating, comment, UserToOrg, now);
        Outcome(st.(reviews := st.reviews + [review]), Success(newId))
  }

  /** `create_user_to_org_review` with the organisation id stored as an `ObjectId`. */
  function CreateUserToOrg(st: StoreState, eventId: ObjectId, userId: ObjectId, rating: Rating,
                           comment: Option<string>, newId: ObjectId, now: int): (o: Outcome<ObjectId>)
    ensures o.result.Success? <==>
      EligibleEvent(st, eventId, userId, now, UserNotVolunteer).Success? && !HasUserToOrgReview(st, userId, eventId)
    ensures o.result.Failure? ==> o.state == st
    ensures o.result.Success? ==>
      (o.result.value == newId &&
       o.state == st.(reviews := st.reviews + [StoredReview(newId, eventId, userId,
         AsObjectId(FindEvent(st, eventId).value.organisationId), rating, comment, UserToOrg, now)]))
    ensures EligibleEvent(st, eventId, userId, now, UserNotVolunteer).Success? && HasUserToOrgReview(st, userId, eventId) ==>
      o.result == Failure(HttpError(400, UserAlreadyRated))
  {
    match EligibleEvent(st, eventId, userId, now, UserNotVolunteer)
    case Failure(e) => Outcome(st, Failure(e))
    case Success(ev) =>
      if HasUserToOrgReview(st, userId, eventId) then Outcome(st, Failure(HttpError(400, UserAlreadyRated)))
      else
        var review := StoredReview(newId, eventId, userId, AsObjectId(ev.organisationId), rating, comment, UserToOrg, now);
        Outcome(st.(reviews := st.reviews + [review]), Success(newId))
  }

  /** The live `create_org_to_user_review`. The organisation is the caller's; nothing checks
      that it owns the event. */
  function CreateOrgToUser(st: StoreState, eventId: ObjectId, userId: ObjectId, orgId: ObjectId, rating: Rating,
                           comment: Option<string>, newId: ObjectId, now: int): (o: Outcome<ObjectId>)
    ensures o.result.Success? <==>
      EligibleEvent(st, eventId, userId, now, VolunteerNotAccepted).Success? && !HasOrgToUserReview(st, userId, orgId, eventId)
    ensures o.result.Failure? ==> o.state == st
    ensures o.result.Success? ==>
      (o.result.value == newId &&
       o.state == st.(reviews := st.reviews + [StoredReview(newId, eventId, userId, AsObjectId(orgId), rating, comment, OrgToUser, now)]))
    ensures EligibleEvent(st, eventId, userId, now, VolunteerNotAccepted).Success? && HasOrgToUserReview(st, userId, orgId, eventId) ==>
      o.result == Failure(HttpError(400, VolunteerAlreadyRated))
  {
    match EligibleEvent(st, eventId, userId, now, VolunteerNotAccepted)
    case Failure(e) => Outcome(st, Failure(e))
    case Success(ev) =>
      if HasOrgToUserReview(st, userId, orgId, eventId) then Outcome(st, Failure(HttpError(400, VolunteerAlreadyRated)))
      else
        var review := StoredReview(newId, eventId, userId, AsObjectId(orgId), rating, comment, OrgToUser, now);
        Outcome(st.(reviews := st.reviews + [review]), Success(newId))
  }

  /** `to_public_review`: names looked up by id, with fixed fallbacks. */
  function ToPublicReview(st: StoreState, r: StoredReview): (p: PublicReview)
    ensures p.rating == r.rating && p.comment == r.comment
    ensures FindEvent(st, r.eventId).None? ==> p.eventName == "Unknown event"
    ensures FindEvent(st, r.eventId).Some? ==> p.eventName == FindEvent(st, r.eventId).value.data.title
    ensures FindUser(st, r.userId).None? ==> p.userName == "Unknown user"
    ensures FindUser(st, r.userId).Some? ==>
      p.userName == Trim(FindUser(st, r.userId).value.firstName.GetOr("") + " " + FindUser(st, r.userId).value.lastName.GetOr(""))
    ensures FindOrganisation(st, r.organisationId.Text()).None? ==> p.organisationName == "Unknown organisation"
    ensures FindOrganisation(st, r.organisationId.Text()).Some? ==>
      p.organisationName == FindOrganisation(st, r.organisationId.Text()).value.data.name
  {
    var ev := FindEvent(st, r.eventId);
    var user := FindUser(st, r.userId);
    var org := FindOrganisation(st, r.organisationId.Text());
    PublicReview(
      if ev.Some? then ev.value.data.title else "Unknown event",
      if user.Some? then Trim(user.value.firstName.GetOr("") + " " + user.value.lastName.GetOr("")) else "Unknown user",
      if org.Some? then org.value.data.name else "Unknown organisation",
      r.rating, r.comment)
  }

  function PublicReviews(st: StoreState, rs: seq<StoredReview>): (ps: seq<PublicReview>)
    ensures |ps| == |rs| && forall i :: 0 <= i < |rs| ==> ps[i] == ToPublicReview(st, rs[i])
  {
    seq(|rs|, i requires 0 <= i < |rs| => ToPublicReview(st, rs[i]))
  }

  /** The reviews volunteers gave an organisation: the query behind `get_reviews_received_by_org`,
      `get_public_reviews_for_org` and `get_org_avg_rating`. */
  function ReceivedByOrg(st: StoreState, orgId: ObjectId): (rs: seq<StoredReview>)
    ensures forall r :: r in rs <==> r in st.reviews && r.organisationId == AsObjectId(orgId) && r.direction == UserToOrg
  {
    Sorting.Filter(st.reviews, (r: StoredReview) => r.organisationId == AsObjectId(orgId) && r.direction == UserToOrg)
  }

  /** The reviews an organisation gave volunteers (`get_reviews_given_by_org`). */
  function GivenByOrg(st: StoreState, orgId: ObjectId): (rs: seq<StoredReview>)
    ensures forall r :: r in rs <==> r in st.reviews && r.organisationId == AsObjectId(orgId) && r.direction == OrgToUser
  {
    Sorting.Filter(st.reviews, (r: StoredReview) => r.organisationId == AsObjectId(orgId) && r.direction == OrgToUser)
  }

  /** The reviews organisations gave a user: `get_public_reviews_for_user` and `get_user_avg_rating`. */
  function ReceivedByUser(st: StoreState, userId: ObjectId): (rs: seq<StoredReview>)
    ensures forall r :: r in rs <==> r in st.reviews && r.userId == userId && r.direction == OrgToUser
  {
    Sorting.Filter(st.reviews, (r: StoredReview) => r.userId == userId && r.direction == OrgToUser)
  }

  function RatingSum(rs: seq<StoredReview>): (s: int)
    ensures |rs| <= s <= 5 * |rs|
  {
    if rs == [] then 0 else rs[0].rating + RatingSum(rs[1..])
  }

  /** An average as the sum of the ratings and their number, which is positive. */
  datatype Average = Average(sum: int, count: nat)

  /** The `$avg` of the matched ratings: none exactly when nothing matches. */
  function AverageOf(rs: seq<StoredReview>): (a: Option<Average>)
    ensures a.None? <==> rs == []
    ensures a.Some? ==>
      (a.value.count == |rs| && a.value.count > 0 && a.value.count <= a.value.sum <= 5 * a.value.count)
  {
    if rs == [] then None else Some(Average(RatingSum(rs), |rs|))
  }

  function OrgAverage(st: StoreState, orgId: ObjectId): Option<Average> {
    AverageOf(ReceivedByOrg(st, orgId))
  }

  function UserAverage(st: StoreState, userId: ObjectId): Option<Average> {
    AverageOf(ReceivedByUser(st, userId))
  }

  /** `create_user_to_org_review` on the shared store. */
  method CreateUserToOrgReview(db: Store, eventId: ObjectId, userId: ObjectId, rating: Rating,
                               comment: Option<string>, newId: ObjectId, now: int)
    returns (r: Result<ObjectId, HttpError>)
    modifies db
    ensures Outcome(db.Snapshot(), r) == CreateUserToOrg(old(db.Snapshot()), eventId, userId, rating, comment, newId, now)
  {
    var ev := EligibleEvent(db.Snapshot(), eventId, userId, now, UserNotVolunteer);
    if ev.Failure? {
      return Failure(ev.error);
    }
    if HasUserToOrgReview(db.Snapshot(), userId, eventId) {
      return Failure(HttpError(400, UserAlreadyRated));
    }
    db.reviews := db.reviews + [StoredReview(newId, eventId, userId, AsObjectId(ev.value.organisationId), rating, comment, UserToOrg, now)];
    return Success(newId);
  }

  /** The live `create_org_to_user_review` on the shared store. */
  method CreateOrgToUserReview(db: Store, eventId: ObjectId, userId: ObjectId, orgId: ObjectId, rating: Rating,
                               comment: Option<string>, newId: ObjectId, now: int)
    returns (r: Result<ObjectId, HttpError>)
    modifies db
    ensures Outcome(db.Snapshot(), r) == CreateOrgToUser(old(db.Snapshot()), eventId, userId, orgId, rating, comment, newId, now)
  {
    var ev := EligibleEvent(db.Snapshot(), eventId, userId, now, VolunteerNotAccepted);
    if ev.Failure? {
      return Failure(ev.error);
    }
    if HasOrgToUserReview(db.Snapshot(), userId, orgId, eventId) {
      return Failure(HttpError(400, VolunteerAlreadyRated));
    }
    db.reviews := db.reviews + [StoredReview(newId, eventId, userId, AsObjectId(orgId), rating, comment, OrgToUser, now)];
    return Success(newId);
  }
}

module ReviewServiceProperties {
  import opened Wrappers
  import opened UserModels
  import opened EventModels
  import opened ReviewModels
  import opened Database
  import opened ReviewService
  import Sorting

  /** A volunteer can rate an event's organisation once: after a stored user→organisation
      review, the same request fails with the duplicate error, however late it comes. */
  lemma UserToOrgOnce(st: StoreState, eventId: ObjectId, userId: ObjectId, rating: Rating, comment: Option<string>,
                      newId: ObjectId, now: int, rating2: Rating, comment2: Option<string>, newId2: ObjectId, later: int)
    requires CreateUserToOrg(st, eventId, userId, rating, comment, newId, now).result.Success?
    requires now <= later
    ensures var st2 := CreateUserToOrg(st, eventId, userId, rating, comment, newId, now).state;
      CreateUserToOrg(st2, eventId, userId, rating2, comment2, newId2, later).result == Failure(HttpError(400, UserAlreadyRated))
  {
    var st2 := CreateUserToOrg(st, eventId, userId, rating, comment, newId, now).state;
    var added := st2.reviews[|st2.reviews| - 1];
    assert added in st2.reviews;
    assert st2.events == st.events && st2.applications == st.applications;
    assert FindEvent(st2, eventId) == FindEvent(st, eventId);
    assert FindApplicationOf(st2, userId, eventId) == FindApplicationOf(st, userId, eventId);
  }

  /** An organisation can rate a volunteer once per event. */
  lemma OrgToUserOnce(st: StoreState, eventId: ObjectId, userId: ObjectId, orgId: ObjectId, rating: Rating,
                      comment: Option<string>, newId: ObjectId, now: int,
                      rating2: Rating, comment2: Option<string>, newId2: ObjectId, later: int)
    requires CreateOrgToUser(st, eventId, userId, orgId, rating, comment, newId, now).result.Success?
    requires now <= later
    ensures var st2 := CreateOrgToUser(st, eventId, userId, orgId, rating, comment, newId, now).state;
      CreateOrgToUser(st2, eventId, userId, orgId, rating2, comment2, newId2, later).result == Failure(HttpError(400, VolunteerAlreadyRated))
  {
    var st2 := CreateOrgToUser(st, eventId, userId, orgId, rating, comment, newId, now).state;
    var added := st2.reviews[|st2.reviews| - 1];
    assert added in st2.reviews;
    assert FindEvent(st2, eventId) == FindEvent(st, eventId);
    assert FindApplicationOf(st2, userId, eventId) == FindApplicationOf(st, userId, eventId);
  }

  /** Uniqueness is per direction: a volunteer's review of the organisation does not count as
      the organisation's review of the volunteer. */
  lemma DirectionsIndependent(st: StoreState, eventId: ObjectId, userId: ObjectId, rating: Rating,
                              comment: Option<string>, newId: ObjectId, now: int, orgId: ObjectId)
    requires CreateUserToOrg(st, eventId, userId, rating, comment, newId, now).result.Success?
    ensures var st2 := CreateUserToOrg(st, eventId, userId, rating, comment, newId, now).state;
      HasOrgToUserReview(st2, userId, orgId, eventId) == HasOrgToUserReview(st, userId, orgId, eventId)
  {
    var st2 := CreateUserToOrg(st, eventId, userId, rating, comment, newId, now).state;
    assert forall r :: r in st2.reviews ==> r in st.reviews || r.direction == UserToOrg;
    assert forall r :: r in st.reviews ==> r in st2.reviews;
  }

  /** As written, a volunteer's review of an organisation never reaches the organisation's
      listings or average: its organisation id is stored as text, and those queries match the
      `ObjectId`. */
  lemma UserToOrgReviewInvisible(st: StoreState, eventId: ObjectId, userId: ObjectId, rating: Rating,
                                 comment: Option<string>, newId: ObjectId, now: int, orgId: ObjectId)
    requires CreateUserToOrgAsWritten(st, eventId, userId, rating, comment, newId, now).result.Success?
    ensures var st2 := CreateUserToOrgAsWritten(st, eventId, userId, rating, comment, newId, now).state;
      ReceivedByOrg(st2, orgId) == ReceivedByOrg(st, orgId) && OrgAverage(st2, orgId) == OrgAverage(st, orgId)
  {
    var st2 := CreateUserToOrgAsWritten(st, eventId, userId, rating, comment, newId, now).state;
    var added := st2.reviews[|st2.reviews| - 1];
    assert st2.reviews == st.reviews + [added];
    Sorting.FilterAppend(st.reviews, added, (r: StoredReview) => r.organisationId == AsObjectId(orgId) && r.direction == UserToOrg);
  }

  /** With the id stored as an `ObjectId`, the new review is the last of the organisation's
      received reviews, which therefore have an average. */
  lemma UserToOrgReviewCounted(st: StoreState, eventId: ObjectId, userId: ObjectId, rating: Rating,
                               comment: Option<string>, newId: ObjectId, now: int)
    requires CreateUserToOrg(st, eventId, userId, rating, comment, newId, now).result.Success?
    ensures var st2 := CreateUserToOrg(st, eventId, userId, rating, comment, newId, now).state;
      var orgId := FindEvent(st, eventId).value.organisationId;
      ReceivedByOrg(st2, orgId) == ReceivedByOrg(st, orgId) + [st2.reviews[|st2.reviews| - 1]]
      && OrgAverage(st2, orgId).Some?
  {
    var st2 := CreateUserToOrg(st, eventId, userId, rating, comment, newId, now).state;
    var orgId := FindEvent(st, eventId).value.organisationId;
    var added := st2.reviews[|st2.reviews| - 1];
    assert st2.reviews == st.reviews + [added];
    Sorting.FilterAppend(st.reviews, added, (r: StoredReview) => r.organisationId == AsObjectId(orgId) && r.direction == UserToOrg);
  }

  /** The average is absent exactly when no review of that direction matches. */
  lemma AverageAbsentIff(st: StoreState, orgId: ObjectId, userId: ObjectId)
    ensures OrgAverage(st, orgId).None? <==>
      forall r :: r in st.reviews ==> !(r.organisationId == AsObjectId(orgId) && r.direction == UserToOrg)
    ensures UserAverage(st, userId).None? <==>
      forall r :: r in st.reviews ==> !(r.userId == userId && r.direction == OrgToUser)
  {
    var a := ReceivedByOrg(st, orgId);
    if a != [] { assert a[0] in a; }
    var b := ReceivedByUser(st, userId);
    if b != [] { assert b[0] in b; }
  }

  /** Any organisation may rate an eligible volunteer: the outcome does not depend on which
      organisation asks, as long as neither has rated the volunteer for the event yet. */
  lemma AnyOrganisationMayRate(st: StoreState, eventId: ObjectId, userId: ObjectId, org1: ObjectId, org2: ObjectId,
                               rating: Rating, comment: Option<string>, newId: ObjectId, now: int)
    requires !HasOrgToUserReview(st, userId, org1, eventId) && !HasOrgToUserReview(st, userId, org2, eventId)
    ensures CreateOrgToUser(st, eventId, userId, org1, rating, comment, newId, now).result
         == CreateOrgToUser(st, eventId, userId, org2, rating, comment, newId, now).result
  {
  }
}
