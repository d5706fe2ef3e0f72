/** The server's collections, as the services read and write them through their repositories:
    each collection is a sequence of records in insertion order, and `find_one` is the first
    match. */
module Database {
  import opened Wrappers
  import opened UserModels
  import opened OrganisationModels
  import opened ApplicationModels
  import opened EventModels
  import opened ReviewModels

  /** The index of the first element satisfying `p`, if any. */
  function FindIndex<T>(s: seq<T>, p: T -> bool): (r: Option<nat>)
    ensures r.None? <==> forall i :: 0 <= i < |s| ==> !p(s[i])
    ensures r.Some? ==> r.value < |s| && p(s[r.value]) && forall j :: 0 <= j < r.value ==> !p(s[j])
  {
    if s == [] then None
    else if p(s[0]) then Some(0)
    else
      var r := FindIndex(s[1..], p);
      if r.Some? then Some(r.value + 1) else None
  }

  /** `find_one`: the first element satisfying `p`, if any. */
  function FindFirst<T(!new)>(s: seq<T>, p: T -> bool): (r: Option<T>)
    ensures r.None? <==> forall x :: x in s ==> !p(x)
    ensures r.Some? ==> r.value in s && p(r.value)
    ensures r.Some? ==> exists i :: 0 <= i < |s| && s[i] == r.value && forall j :: 0 <= j < i ==> !p(s[j])
  {
    var i := FindIndex(s, p);
    if i.Some? then Some(s[i.value]) else None
  }

  /** `update_one`: the first element satisfying `p` replaced by `f` of it; the rest unchanged. */
  function UpdateFirst<T>(s: seq<T>, p: T -> bool, f: T -> T): (r: seq<T>)
    ensures |r| == |s|
    ensures FindIndex(s, p).None? ==> r == s
    ensures FindIndex(s, p).Some? ==> r == s[FindIndex(s, p).value := f(s[FindIndex(s, p).value])]
  {
    if s == [] then []
    else if p(s[0]) then [f(s[0])] + s[1..]
    else [s[0]] + UpdateFirst(s[1..], p, f)
  }

  /** `delete_one`: the first element satisfying `p` removed. */
  function DeleteFirst<T>(s: seq<T>, p: T -> bool): (r: seq<T>)
    ensures FindIndex(s, p).None? ==> r == s
    ensures FindIndex(s, p).Some? ==> r == s[..FindIndex(s, p).value] + s[FindIndex(s, p).value + 1..]
  {
    if s == [] then []
    else if p(s[0]) then s[1..]
    else
      var rest := DeleteFirst(s[1..], p);
      assert FindIndex(s, p).Some? ==> FindIndex(s, p).value == FindIndex(s[1..], p).value + 1;
      [s[0]] + rest
  }

  /** `find_one` on the result of `update_one` with the same filter finds the updated element,
      provided the update keeps it matching the filter. */
  lemma FindAfterUpdate<T(!new)>(s: seq<T>, p: T -> bool, f: T -> T)
    requires FindIndex(s, p).Some? && p(f(s[FindIndex(s, p).value]))
    ensures FindIndex(UpdateFirst(s, p, f), p) == FindIndex(s, p)
    ensures FindFirst(UpdateFirst(s, p, f), p) == Some(f(s[FindIndex(s, p).value]))
  {
    var k := FindIndex(s, p).value;
    var r := UpdateFirst(s, p, f);
    assert r == s[k := f(s[k])];
    var m := FindIndex(r, p);
    assert p(r[k]);
  }

  /** A stored id: the `ObjectId` the services normally write, or its text, which a query
      on the `ObjectId` does not match. */
  datatype StoredId = AsObjectId(oid: ObjectId) | AsText(text: ObjectId) {
    /** `str()` of the stored value. */
    function Text(): ObjectId {
      match this
      case AsObjectId(o) => o
      case AsText(t) => t
    }
  }

  datatype Direction = UserToOrg | OrgToUser

  /** A review document: the fields of `ReviewDB` plus its `direction`; the organisation id is
      stored as the creating service wrote it. */
  datatype StoredReview = StoredReview(
    id: ObjectId, eventId: ObjectId, userId: ObjectId, organisationId: StoredId,
    rating: Rating, comment: Option<string>, direction: Direction, createdAt: int)

  /** The members of a user document the services read. */
  datatype StoredUser = StoredUser(id: ObjectId, firstName: Option<string>, lastName: Option<string>)

  /** One notification sent to an organisation. */
  datatype Notice = Notice(organisationId: ObjectId, message: string)

  /** The status code and detail of a raised `HTTPException`. */
  datatype HttpError = HttpError(status: int, detail: string)

  /** The new store contents and what the call returned or raised. */
  datatype Outcome<T> = Outcome(state: StoreState, result: Result<T, HttpError>)

  /** The new store contents and the `ValueError` message, if one was raised. */
  datatype ValueOutcome = ValueOutcome(state: StoreState, result: Result<(), string>)

  datatype StoreState = StoreState(
    events: seq<EventDB>, applications: seq<ApplicationDB>, reviews: seq<StoredReview>,
    organisations: seq<OrganisationDB>, users: seq<StoredUser>, notifications: seq<Notice>)

  /** The filter `{"_id": id}` on each collection. */
  function EventIdIs(id: ObjectId): EventDB -> bool {
    (e: EventDB) => e.id == id
  }

  function ApplicationIdIs(id: ObjectId): ApplicationDB -> bool {
    (a: ApplicationDB) => a.id == id
  }

  function OrganisationIdIs(id: ObjectId): OrganisationDB -> bool {
    (o: OrganisationDB) => o.id == id
  }

  function FindEvent(st: StoreState, id: ObjectId): Option<EventDB> {
    FindFirst(st.events, EventIdIs(id))
  }

  function FindApplication(st: StoreState, id: ObjectId): Option<ApplicationDB> {
    FindFirst(st.applications, ApplicationIdIs(id))
  }

  /** `find_by_user_and_event` */
  function FindApplicationOf(st: StoreState, userId: ObjectId, eventId: ObjectId): Option<ApplicationDB> {
    FindFirst(st.applications, (a: ApplicationDB) => a.userId == userId && a.data.eventId == eventId)
  }

  /** The lookup by id that `find_by_id` on organisations is called for; the organisation
      repository does not define it. */
  function FindOrganisation(st: StoreState, id: ObjectId): Option<OrganisationDB> {
    FindFirst(st.organisations, OrganisationIdIs(id))
  }

  /** The exact match on the username that `find_exact_by_username` and `find_by_username` are
      called for; the organisation repository defines neither. */
  function FindOrganisationByUsername(st: StoreState, username: string): Option<OrganisationDB> {
    FindFirst(st.organisations, (o: OrganisationDB) => o.data.username == username)
  }

  /** `find_by_email` */
  function FindOrganisationByEmail(st: StoreState, email: string): Option<OrganisationDB> {
    FindFirst(st.organisations, (o: OrganisationDB) => o.data.email == email)
  }

  function FindUser(st: StoreState, id: ObjectId): Option<StoredUser> {
    FindFirst(st.users, (u: StoredUser) => u.id == id)
  }

  /** The store that every service shares. */
  class Store {
    var events: seq<EventDB>
    var applications: seq<ApplicationDB>
    var reviews: seq<StoredReview>
    var organisations: seq<OrganisationDB>
    var users: seq<StoredUser>
    var notifications: seq<Notice>

    function Snapshot(): StoreState
      reads this
    {
      StoreState(events, applications, reviews, organisations, users, notifications)
    }

    constructor(initial: StoreState)
      ensures Snapshot() == initial
    {
      events, applications, reviews := initial.events, initial.applications, initial.reviews;
      organisations, users, notifications := initial.organisations, initial.users, initial.notifications;
    }
  }
}
