/** Organisations on the server: registration, the admin's decision, and the lookups. */
module OrganisationService {
  import opened Wrappers
  import opened UserModels
  import opened OrganisationModels
  import opened Database
  import Sorting

  const EmailTaken := "Organizacija sa ovim emailom već postoji."
  const OrganisationNotFound := "Organizacija nije pronađena"
  const UsernameNotFound := "Organizacija sa tim username-om nije pronađena niti sličnim"

  /** `register_organisation`. `hashed` is the bcrypt hash of the password and `newId` the id
      the store assigns. */
  function RegisterStep(st: StoreState, data: OrganisationIn, hashed: string, newId: ObjectId, now: int)
    : (o: Outcome<ObjectId>)
    ensures o.result.Failure? <==> FindOrganisationByEmail(st, data.email).Some?
    ensures o.result.Failure? ==> o == Outcome(st, Failure(HttpError(400, EmailTaken)))
    ensures o.result.Success? ==>
      && o.result.value == newId
      && o.state == st.(organisations := st.organisations + [NewOrganisationDB(data.(password := hashed), newId, now)])
  {
    if FindOrganisationByEmail(st, data.email).Some? then Outcome(st, Failure(HttpError(400, EmailTaken)))
    else Outcome(st.(organisations := st.organisations + [NewOrganisationDB(data.(password := hashed), newId, now)]),
                 Success(newId))
  }

  /** The update `{"$set": {"status": status}}`. */
  function StatusSetTo(status: OrganisationStatus): OrganisationDB -> OrganisationDB {
    (g: OrganisationDB) => g.(status := status)
  }

  /** `update_status` followed by the service's check of the modified count: nothing is
      modified when the organisation is missing or already has that status. */
  function SetStatusStep(st: StoreState, id: ObjectId, status: OrganisationStatus): (o: Outcome<()>)
    ensures o.result.Success? <==> FindOrganisation(st, id).Some? && FindOrganisation(st, id).value.status != status
    ensures o.result.Failure? ==> o == Outcome(st, Failure(HttpError(404, OrganisationNotFound)))
    ensures o.result.Success? ==>
      o.state == st.(organisations := UpdateFirst(st.organisations, OrganisationIdIs(id),
                                                  StatusSetTo(status)))
  {
    match FindOrganisation(st, id)
    case None => Outcome(st, Failure(HttpError(404, OrganisationNotFound)))
    case Some(g) =>
      if g.status == status then Outcome(st, Failure(HttpError(404, OrganisationNotFound)))
      else Outcome(st.(organisations := UpdateFirst(st.organisations, OrganisationIdIs(id),
                                                    StatusSetTo(status))),
                   Success(()))
  }

  /** `find_pending` */
  function ListPending(st: StoreState): (r: seq<OrganisationDB>)
    ensures forall g :: g in r <==> g in st.organisations && g.status == Pending
    ensures |r| <= |st.organisations|
  {
    Sorting.Filter(st.organisations, (g: OrganisationDB) => g.status == Pending)
  }

  function GetOrganisationById(st: StoreState, id: ObjectId): (r: Result<OrganisationDB, string>)
    ensures r.Failure? <==> forall g :: g in st.organisations ==> g.id != id
    ensures r.Failure? ==> r.error == OrganisationNotFound
    ensures r.Success? ==> r.value in st.organisations && r.value.id == id
  {
    match FindOrganisation(st, id)
    case Some(g) => Success(g)
    case None => Failure(OrganisationNotFound)
  }

  function GetOrganisationByUsername(st: StoreState, username: string): (r: Result<OrganisationDB, string>)
    ensures r.Failure? <==> forall g :: g in st.organisations ==> g.data.username != username
    ensures r.Failure? ==> r.error == UsernameNotFound
    ensures r.Success? ==> r.value in st.organisations && r.value.data.username == username
  {
    match FindOrganisationByUsername(st, username)
    case Some(g) => Success(g)
    case None => Failure(UsernameNotFound)
  }

  /** `get_current_organisation`: the organisation whose email the token carries. */
  function GetCurrentOrganisation(st: StoreState, email: string): (r: Result<OrganisationDB, string>)
    ensures r.Failure? <==> forall g :: g in st.organisations ==> g.data.email != email
    ensures r.Failure? ==> r.error == OrganisationNotFound
    ensures r.Success? ==> r.value in st.organisations && r.value.data.email == email
  {
    match FindOrganisationByEmail(st, email)
    case Some(g) => Success(g)
    case None => Failure(OrganisationNotFound)
  }

  method RegisterOrganisation(db: Store, data: OrganisationIn, hashed: string, newId: ObjectId, now: int)
    returns (r: Result<ObjectId, HttpError>)
    modifies db
    ensures Outcome(db.Snapshot(), r) == RegisterStep(old(db.Snapshot()), data, hashed, newId, now)
  {
    if FindOrganisationByEmail(db.Snapshot(), data.email).Some? {
      return Failure(HttpError(400, EmailTaken));
    }
    var orgData := data;
    orgData := orgData.(password := hashed);
    db.organisations := db.organisations + [NewOrganisationDB(orgData, newId, now)];
    return Success(newId);
  }

  method ApproveOrganisation(db: Store, id: ObjectId) returns (r: Result<(), HttpError>)
    modifies db
    ensures Outcome(db.Snapshot(), r) == SetStatusStep(old(db.Snapshot()), id, Approved)
  {
    r := SetStatus(db, id, Approved);
  }

  method RejectOrganisation(db: Store, id: ObjectId) returns (r: Result<(), HttpError>)
    modifies db
    ensures Outcome(db.Snapshot(), r) == SetStatusStep(old(db.Snapshot()), id, Rejected)
  {
    r := SetStatus(db, id, Rejected);
  }

  method SetStatus(db: Store, id: ObjectId, status: OrganisationStatus) returns (r: Result<(), HttpError>)
    modifies db
    ensures Outcome(db.Snapshot(), r) == SetStatusStep(old(db.Snapshot()), id, status)
  {
    var g := FindOrganisation(db.Snapshot(), id);
    if g.None? || g.value.status == status {
      return Failure(HttpError(404, OrganisationNotFound));
    }
    db.organisations := UpdateFirst(db.organisations, OrganisationIdIs(id), StatusSetTo(status));
    return Success(());
  }
}

module OrganisationServiceProperties {
  import opened Wrappers
  import opened UserModels
  import opened OrganisationModels
  import opened Database
  import opened OrganisationService

  /** Once registered, an email cannot register again. */
  lemma EmailRegistersOnce(st: StoreState, data: OrganisationIn, other: OrganisationIn, hashed: string, hashed2: string,
                           newId: ObjectId, newId2: ObjectId, now: int, later: int)
    requires RegisterStep(st, data, hashed, newId, now).result.Success?
    requires other.email == data.email
    ensures RegisterStep(RegisterStep(st, data, hashed, newId, now).state, other, hashed2, newId2, later)
         == Outcome(RegisterStep(st, data, hashed, newId, now).state, Failure(HttpError(400, EmailTaken)))
  {
    var s1 := RegisterStep(st, data, hashed, newId, now).state;
    var g := NewOrganisationDB(data.(password := hashed), newId, now);
    assert s1.organisations[|s1.organisations| - 1] == g;
    assert g in s1.organisations;
  }

  /** A fresh registration is found under its new id, pending, never updated, with the hash in
      place of the password. */
  lemma RegisteredIsPending(st: StoreState, data: OrganisationIn, hashed: string, newId: ObjectId, now: int)
    requires FindOrganisationByEmail(st, data.email).None?
    requires FindOrganisation(st, newId).None?
    ensures var r := GetOrganisationById(RegisterStep(st, data, hashed, newId, now).state, newId);
      && r.Success? && r.value.status == Pending && r.value.updatedAt.None?
      && r.value.data.password == hashed && r.value.data.email == data.email
  {
    var s1 := RegisterStep(st, data, hashed, newId, now).state;
    var g := NewOrganisationDB(data.(password := hashed), newId, now);
    assert s1.organisations == st.organisations + [g];
    assert s1.organisations[|st.organisations|] == g;
    var r := FindOrganisation(s1, newId);
    assert r.Some?;
    assert r.value in st.organisations || r.value == g;
  }

  /** Approving an organisation that is already approved reports 404: the store modified
      nothing. */
  lemma ApproveTwiceNotFound(st: StoreState, id: ObjectId)
    requires SetStatusStep(st, id, Approved).result.Success?
    ensures var s1 := SetStatusStep(st, id, Approved).state;
      && GetOrganisationById(s1, id).Success? && GetOrganisationById(s1, id).value.status == Approved
      && SetStatusStep(s1, id, Approved) == Outcome(s1, Failure(HttpError(404, OrganisationNotFound)))
  {
    FindAfterUpdate(st.organisations, OrganisationIdIs(id), StatusSetTo(Approved));
  }

  /** An approved organisation can still be rejected, and then it is rejected. */
  lemma ApprovedCanBeRejected(st: StoreState, id: ObjectId)
    requires SetStatusStep(st, id, Approved).result.Success?
    ensures var s1 := SetStatusStep(st, id, Approved).state;
      && SetStatusStep(s1, id, Rejected).result.Success?
      && (var g := FindOrganisation(SetStatusStep(s1, id, Rejected).state, id); g.Some? && g.value.status == Rejected)
  {
    var s1 := SetStatusStep(st, id, Approved).state;
    FindAfterUpdate(st.organisations, OrganisationIdIs(id), StatusSetTo(Approved));
    var g1 := FindOrganisation(s1, id);
    assert g1.Some? && g1.value.status == Approved;
    assert SetStatusStep(s1, id, Rejected).result.Success?;
    var s2 := SetStatusStep(s1, id, Rejected).state;
    FindAfterUpdate(s1.organisations, OrganisationIdIs(id), StatusSetTo(Rejected));
    assert FindOrganisation(s2, id) == Some(g1.value.(status := Rejected));
  }
}
