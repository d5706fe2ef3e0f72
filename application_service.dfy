/** The application lifecycle on the server: applying, the listings for volunteers and
    organisations, an organisation's decision, and cancelling. */
module ApplicationService {
  import opened Wrappers
  import opened UserModels
  import OrganisationModels
  import opened ApplicationModels
  import opened EventModels
  import opened Database
  import Sorting

  const EventNotFound := "Događaj nije pronađen."
  const AlreadyApplied := "Već ste se prijavili na ovaj događaj."
  const NotOwnEvent := "Event ne pripada organizaciji"
  const ApplicationNotFound := "Prijava nije pronađena."
  const NoPermission := "Nemate dozvolu da menjate ovu prijavu."
  const NotYours := "Nije dozvoljeno povući tuđu prijavu."
  const AlreadyProcessed := "Ne možete povući prijavu koja je već obrađena."
  const UnknownEvent := "Nepoznat događaj"
  const UnknownOrganisation := "Nepoznata organizacija"
  const NewApplicationPrefix := "New volunteer applied for your event: "
  /** The answer FastAPI gives for an exception the route does not catch. */
  const InternalServerError := "Internal Server Error"

  /** An application dict as a listing returns it: tagged with its event's title and its
      organisation's name. */
  datatype ApplicationView = ApplicationView(app: ApplicationDB, eventTitle: string, organisationName: string)

  function OrganisationName(st: StoreState, orgId: ObjectId): (n: string)
    ensures FindOrganisation(st, orgId).None? ==> n == UnknownOrganisation
    ensures FindOrganisation(st, orgId).Some? ==> n == FindOrganisation(st, orgId).value.data.name
  {
    var org := FindOrganisation(st, orgId);
    if org.Some? then org.value.data.name else UnknownOrganisation
  }

  /** `apply` */
  function ApplyStep(st: StoreState, data: ApplicationIn, applicant: UserSnapshot, newId: ObjectId, now: int)
    : (o: Outcome<ObjectId>)
    ensures FindEvent(st, data.eventId).None? ==> o == Outcome(st, Failure(HttpError(404, EventNotFound)))
    ensures FindEvent(st, data.eventId).Some? && FindApplicationOf(st, applicant.id, data.eventId).Some? ==>
      o == Outcome(st, Failure(HttpError(400, AlreadyApplied)))
    ensures o.result.Success? <==>
      FindEvent(st, data.eventId).Some? && FindApplicationOf(st, applicant.id, data.eventId).None?
    ensures o.result.Success? ==>
      (o.result.value == newId &&
       o.state == st.(applications := st.applications + [NewApplicationDB(data, newId, applicant.id, applicant, now)],
                      notifications := st.notifications + [Notice(FindEvent(st, data.eventId).value.organisationId,
                        NewApplicationPrefix + FindEvent(st, data.eventId).value.data.title)]))
  {
    match FindEvent(st, data.eventId)
    case None => Outcome(st, Failure(HttpError(404, EventNotFound)))
    case Some(ev) =>
      if FindApplicationOf(st, applicant.id, data.eventId).Some? then Outcome(st, Failure(HttpError(400, AlreadyApplied)))
      else
        var app := NewApplicationDB(data, newId, applicant.id, applicant, now);
        Outcome(st.(applications := st.applications + [app],
                    notifications := st.notifications + [Notice(ev.organisationId, NewApplicationPrefix + ev.data.title)]),
                Success(newId))
  }

  /** `apply` as the code stands. Past the two guards it builds the applicant snapshot from
      `current_user.first_name`, but a `UserDB` declares no first name and its model admits no
      extra attributes, so the read raises AttributeError: the request ends in a 500, before the
      application is created or the organisation notified. */
  function ApplyAsWritten(st: StoreState, data: ApplicationIn, user: UserDB): (o: Outcome<ObjectId>)
    ensures o.state == st && o.result.Failure?
    ensures FindEvent(st, data.eventId).None? ==> o.result == Failure(HttpError(404, EventNotFound))
    ensures FindEvent(st, data.eventId).Some? && FindApplicationOf(st, user.id, data.eventId).Some? ==>
      o.result == Failure(HttpError(400, AlreadyApplied))
    ensures o.result == Failure(HttpError(500, InternalServerError)) <==>
      FindEvent(st, data.eventId).Some? && FindApplicationOf(st, user.id, data.eventId).None?
  {
    if FindEvent(st, data.eventId).None? then Outcome(st, Failure(HttpError(404, EventNotFound)))
    else if FindApplicationOf(st, user.id, data.eventId).Some? then Outcome(st, Failure(HttpError(400, AlreadyApplied)))
    else Outcome(st, Failure(HttpError(500, InternalServerError)))
  }

  /** The fields an organisation's update writes: the decision's status and the notes when
      given, and always `updated_at`. */
  function Updated(a: ApplicationDB, u: ApplicationUpdate, now: int): (r: ApplicationDB)
    ensures r.status == StatusAfterUpdate(a.status, u) && r.updatedAt == Some(now)
    ensures r.data.extraNotes == (if u.extraNotes.Some? then u.extraNotes else a.data.extraNotes)
    ensures r.id == a.id && r.userId == a.userId && r.data.eventId == a.data.eventId && r.userInfo == a.userInfo
  {
    a.(status := StatusAfterUpdate(a.status, u),
       data := if u.extraNotes.Some? then a.data.(extraNotes := u.extraNotes) else a.data,
       updatedAt := Some(now))
  }

  /** `update_status` by organisation `orgId`. */
  function UpdateStatusStep(st: StoreState, appId: ObjectId, u: ApplicationUpdate, orgId: ObjectId, now: int)
    : (o: Outcome<()>)
    ensures FindApplication(st, appId).None? ==> o.result == Failure(HttpError(404, ApplicationNotFound))
    ensures FindApplication(st, appId).Some? && FindEvent(st, FindApplication(st, appId).value.data.eventId).None? ==>
      o.result == Failure(HttpError(404, EventNotFound))
    ensures (FindApplication(st, appId).Some? && FindEvent(st, FindApplication(st, appId).value.data.eventId).Some?
             && FindEvent(st, FindApplication(st, appId).value.data.eventId).value.organisationId != orgId) ==>
      o.result == Failure(HttpError(403, NoPermission))
    ensures o.result.Success? <==>
      FindApplication(st, appId).Some? && FindEvent(st, FindApplication(st, appId).value.data.eventId).Some?
      && FindEvent(st, FindApplication(st, appId).value.data.eventId).value.organisationId == orgId
    ensures o.result.Failure? ==> o.state == st
    ensures o.result.Success? ==>
      o.state == st.(applications := UpdateFirst(st.applications, ApplicationIdIs(appId),
                                                 (a: ApplicationDB) => Updated(a, u, now)))
  {
    match FindApplication(st, appId)
    case None => Outcome(st, Failure(HttpError(404, ApplicationNotFound)))
    case Some(app) =>
      match FindEvent(st, app.data.eventId)
      case None => Outcome(st, Failure(HttpError(404, EventNotFound)))
      case Some(ev) =>
        if ev.organisationId != orgId then Outcome(st, Failure(HttpError(403, NoPermission)))
        else
          Outcome(st.(applications := UpdateFirst(st.applications, ApplicationIdIs(appId),
                                                  (a: ApplicationDB) => Updated(a, u, now))),
                  Success(()))
  }

  /** `cancel_application` by user `userId`. */
  function CancelStep(st: StoreState, appId: ObjectId, userId: ObjectId, now: int): (o: Outcome<()>)
    ensures FindApplication(st, appId).None? ==> o.result == Failure(HttpError(404, ApplicationNotFound))
    ensures FindApplication(st, appId).Some? && FindApplication(st, appId).value.userId != userId ==>
      o.result == Failure(HttpError(403, NotYours))
    ensures (FindApplication(st, appId).Some? && FindApplication(st, appId).value.userId == userId
             && FindApplication(st, appId).value.status in {Accepted, Rejected}) ==>
      o.result == Failure(HttpError(400, AlreadyProcessed))
    ensures o.result.Success? <==>
      FindApplication(st, appId).Some? && FindApplication(st, appId).value.userId == userId
      && FindApplication(st, appId).value.status != Accepted && FindApplication(st, appId).value.status != Rejected
    ensures o.result.Failure? ==> o.state == st
    ensures o.result.Success? ==>
      o.state == st.(applications := UpdateFirst(st.applications, ApplicationIdIs(appId),
                                                 (a: ApplicationDB) => a.(status := Cancelled, updatedAt := Some(now))))
  {
    match FindApplication(st, appId)
    case None => Outcome(st, Failure(HttpError(404, ApplicationNotFound)))
    case Some(app) =>
      if app.userId != userId then Outcome(st, Failure(HttpError(403, NotYours)))
      else if app.status == Accepted || app.status == Rejected then Outcome(st, Failure(HttpError(400, AlreadyProcessed)))
      else
        Outcome(st.(applications := UpdateFirst(st.applications, ApplicationIdIs(appId),
                                                (a: ApplicationDB) => a.(status := Cancelled, updatedAt := Some(now)))),
                Success(()))
  }

  /** A user's applications, cancelled ones included, in store order. */
  function ApplicationsOfUser(st: StoreState, userId: ObjectId): (r: seq<ApplicationDB>)
    ensures forall a :: a in r <==> a in st.applications && a.userId == userId
  {
    Sorting.Filter(st.applications, (a: ApplicationDB) => a.userId == userId)
  }

  /** The applications of one event that are not cancelled. */
  function LiveApplicationsOfEvent(st: StoreState, eventId: ObjectId): (r: seq<ApplicationDB>)
    ensures forall a :: a in r <==> a in st.applications && a.data.eventId == eventId && a.status != Cancelled
  {
    Sorting.Filter(st.applications, (a: ApplicationDB) => a.data.eventId == eventId && a.status != Cancelled)
  }

  /** An organisation's events. */
  function EventsOfOrganisation(st: StoreState, orgId: ObjectId): (r: seq<EventDB>)
    ensures forall e :: e in r <==> e in st.events && e.organisationId == orgId
  {
    Sorting.Filter(st.events, (e: EventDB) => e.organisationId == orgId)
  }

  /** The title `event_map` gives an event id of the organisation's events. */
  function TitleIn(events: seq<EventDB>, eventId: ObjectId): (t: string)
    ensures (forall e :: e in events ==> e.id != eventId) ==> t == UnknownEvent
    ensures (exists e :: e in events && e.id == eventId) ==>
      exists e :: e in events && e.id == eventId && t == e.data.title
  {
    var e := FindFirst(events, (e: EventDB) => e.id == eventId);
    if e.Some? then e.value.data.title else UnknownEvent
  }

  /** Whether the application is for one of the organisation's events. */
  predicate OnEventOf(st: StoreState, orgId: ObjectId, a: ApplicationDB) {
    exists e :: e in st.events && e.organisationId == orgId && e.id == a.data.eventId
  }

  /** The applications on any of an organisation's events that are not cancelled. */
  function LiveApplicationsOfOrganisation(st: StoreState, orgId: ObjectId): (r: seq<ApplicationDB>)
    ensures forall a :: a in r <==> a in st.applications && a.status != Cancelled && OnEventOf(st, orgId, a)
  {
    var events := EventsOfOrganisation(st, orgId);
    Sorting.Filter(st.applications, (a: ApplicationDB) =>
      a.status != Cancelled && FindFirst(events, (e: EventDB) => e.id == a.data.eventId).Some?)
  }

  /** The view `get_my_applications` builds for one application. */
  function MyView(st: StoreState, a: ApplicationDB): (v: ApplicationView)
    ensures v.app == a
    ensures FindEvent(st, a.data.eventId).None? ==> v.eventTitle == UnknownEvent && v.organisationName == UnknownOrganisation
    ensures FindEvent(st, a.data.eventId).Some? ==>
      v.eventTitle == FindEvent(st, a.data.eventId).value.data.title
      && v.organisationName == OrganisationName(st, FindEvent(st, a.data.eventId).value.organisationId)
  {
    match FindEvent(st, a.data.eventId)
    case Some(ev) => ApplicationView(a, ev.data.title, OrganisationName(st, ev.organisationId))
    case None => ApplicationView(a, UnknownEvent, UnknownOrganisation)
  }

  /** `apply` on the shared store. */
  method Apply(db: Store, data: ApplicationIn, applicant: UserSnapshot, newId: ObjectId, now: int)
    returns (r: Result<ObjectId, HttpError>)
    modifies db
    ensures Outcome(db.Snapshot(), r) == ApplyStep(old(db.Snapshot()), data, applicant, newId, now)
  {
    var ev := FindEvent(db.Snapshot(), data.eventId);
    if ev.None? {
      return Failure(HttpError(404, EventNotFound));
    }
    if FindApplicationOf(db.Snapshot(), applicant.id, data.eventId).Some? {
      return Failure(HttpError(400, AlreadyApplied));
    }
    db.applications := db.applications + [NewApplicationDB(data, newId, applicant.id, applicant, now)];
    db.notifications := db.notifications + [Notice(ev.value.organisationId, NewApplicationPrefix + ev.value.data.title)];
    return Success(newId);
  }

  /** `get_my_applications`: every application of the user, tagged in a loop. */
  method GetMyApplications(db: Store, userId: ObjectId) returns (views: seq<ApplicationView>)
    ensures |views| == |ApplicationsOfUser(db.Snapshot(), userId)|
    ensures forall i :: 0 <= i < |views| ==> views[i] == MyView(db.Snapshot(), ApplicationsOfUser(db.Snapshot(), userId)[i])
  {
    var apps := ApplicationsOfUser(db.Snapshot(), userId);
    views := [];
    for i := 0 to |apps|
      invariant |views| == i
      invariant forall j :: 0 <= j < i ==> views[j] == MyView(db.Snapshot(), apps[j])
    {
      var ev := FindEvent(db.Snapshot(), apps[i].data.eventId);
      var view := if ev.Some? then ApplicationView(apps[i], ev.value.data.title, OrganisationName(db.Snapshot(), ev.value.organisationId))
                  else ApplicationView(apps[i], UnknownEvent, UnknownOrganisation);
      views := views + [view];
    }
  }

  /** `get_event_applications`: refused unless the event is the organisation's own. */
  method GetEventApplications(db: Store, eventId: ObjectId, orgId: ObjectId) returns (r: Result<seq<ApplicationView>, HttpError>)
    ensures r.Failure? <==> FindEvent(db.Snapshot(), eventId).None? || FindEvent(db.Snapshot(), eventId).value.organisationId != orgId
    ensures r.Failure? ==> r.error == HttpError(403, NotOwnEvent)
    ensures r.Success? ==>
      var live := LiveApplicationsOfEvent(db.Snapshot(), eventId);
      |r.value| == |live| && forall i :: 0 <= i < |live| ==>
        r.value[i] == ApplicationView(live[i], FindEvent(db.Snapshot(), eventId).value.data.title, OrganisationName(db.Snapshot(), orgId))
  {
    var ev := FindEvent(db.Snapshot(), eventId);
    if ev.None? || ev.value.organisationId != orgId {
      return Failure(HttpError(403, NotOwnEvent));
    }
    var orgName := OrganisationName(db.Snapshot(), ev.value.organisationId);
    var live := LiveApplicationsOfEvent(db.Snapshot(), eventId);
    var views := [];
    for i := 0 to |live|
      invariant |views| == i
      invariant forall j :: 0 <= j < i ==> views[j] == ApplicationView(live[j], ev.value.data.title, orgName)
    {
      ghost var prev := views;
      views := views + [ApplicationView(live[i], ev.value.data.title, orgName)];
      assert forall j :: 0 <= j < i ==> views[j] == prev[j];
    }
    return Success(views);
  }

  /** An organisation without events has no applications. */
  lemma NoEventsNoApplications(st: StoreState, orgId: ObjectId)
    requires EventsOfOrganisation(st, orgId) == []
    ensures LiveApplicationsOfOrganisation(st, orgId) == []
  {
    var events := EventsOfOrganisation(st, orgId);
    Sorting.FilterNone(st.applications, (a: ApplicationDB) =>
      a.status != Cancelled && FindFirst(events, (e: EventDB) => e.id == a.data.eventId).Some?);
  }

  /** The tagging loop of `get_all_applications_for_org`. */
  method TagWithTitles(apps: seq<ApplicationDB>, events: seq<EventDB>, orgName: string) returns (views: seq<ApplicationView>)
    ensures |views| == |apps|
    ensures forall i :: 0 <= i < |apps| ==> views[i] == ApplicationView(apps[i], TitleIn(events, apps[i].data.eventId), orgName)
  {
    views := [];
    for i := 0 to |apps|
      invariant |views| == i
      invariant forall j :: 0 <= j < i ==> views[j] == ApplicationView(apps[j], TitleIn(events, apps[j].data.eventId), orgName)
    {
      ghost var prev := views;
      views := views + [ApplicationView(apps[i], TitleIn(events, apps[i].data.eventId), orgName)];
      assert forall j :: 0 <= j < i ==> views[j] == prev[j];
    }
  }

  /** `get_all_applications_for_org` */
  method GetAllApplicationsForOrg(db: Store, orgId: ObjectId) returns (views: seq<ApplicationView>)
    ensures EventsOfOrganisation(db.Snapshot(), orgId) == [] ==> views == []
    ensures var live := LiveApplicationsOfOrganisation(db.Snapshot(), orgId);
      |views| == |live| && forall i :: 0 <= i < |live| ==>
        views[i] == ApplicationView(live[i], TitleIn(EventsOfOrganisation(db.Snapshot(), orgId), live[i].data.eventId),
                                    OrganisationName(db.Snapshot(), orgId))
  {
    var st := db.Snapshot();
    var events := EventsOfOrganisation(st, orgId);
    if events == [] {
      NoEventsNoApplications(st, orgId);
      return [];
    }
    views := TagWithTitles(LiveApplicationsOfOrganisation(st, orgId), events, OrganisationName(st, orgId));
  }

  /** `update_status` on the shared store. */
  method UpdateStatus(db: Store, appId: ObjectId, u: ApplicationUpdate, orgId: ObjectId, now: int)
    returns (r: Result<(), HttpError>)
    modifies db
    ensures Outcome(db.Snapshot(), r) == UpdateStatusStep(old(db.Snapshot()), appId, u, orgId, now)
  {
    var app := FindApplication(db.Snapshot(), appId);
    if app.None? {
      return Failure(HttpError(404, ApplicationNotFound));
    }
    var ev := FindEvent(db.Snapshot(), app.value.data.eventId);
    if ev.None? {
      return Failure(HttpError(404, EventNotFound));
    }
    if ev.value.organisationId != orgId {
      return Failure(HttpError(403, NoPermission));
    }
    db.applications := UpdateFirst(db.applications, ApplicationIdIs(appId), (a: ApplicationDB) => Updated(a, u, now));
    return Success(());
  }

  /** `cancel_application` on the shared store. */
  method CancelApplication(db: Store, appId: ObjectId, userId: ObjectId, now: int) returns (r: Result<(), HttpError>)
    modifies db
    ensures Outcome(db.Snapshot(), r) == CancelStep(old(db.Snapshot()), appId, userId, now)
  {
    var app := FindApplication(db.Snapshot(), appId);
    if app.None? {
      return Failure(HttpError(404, ApplicationNotFound));
    }
    if app.value.userId != userId {
      return Failure(HttpError(403, NotYours));
    }
    if app.value.status == Accepted || app.value.status == Rejected {
      return Failure(HttpError(400, AlreadyProcessed));
    }
    db.applications := UpdateFirst(db.applications, ApplicationIdIs(appId),
                                   (a: ApplicationDB) => a.(status := Cancelled, updatedAt := Some(now)));
    return Success(());
  }
}

module ApplicationServiceProperties {
  import opened Wrappers
  import opened UserModels
  import opened ApplicationModels
  import opened EventModels
  import opened Database
  import opened ApplicationService

  /** A user applies to an event at most once: a second application for the same event is
      refused, whatever its contents. */
  lemma ApplyOnce(st: StoreState, data: ApplicationIn, applicant: UserSnapshot, newId: ObjectId, now: int,
                  data2: ApplicationIn, newId2: ObjectId, now2: int)
    requires ApplyStep(st, data, applicant, newId, now).result.Success?
    requires data2.eventId == data.eventId
    ensures var st2 := ApplyStep(st, data, applicant, newId, now).state;
      ApplyStep(st2, data2, applicant, newId2, now2).result == Failure(HttpError(400, AlreadyApplied))
  {
    var st2 := ApplyStep(st, data, applicant, newId, now).state;
    var added := st2.applications[|st2.applications| - 1];
    assert added in st2.applications;
    assert st2.events == st.events;
  }

  /** `apply` as written never stores anything: it fails on exactly the requests that the
      corrected `ApplyStep` accepts, with a 500, and agrees with it on every guard. */
  lemma ApplyAsWrittenCrashes(st: StoreState, data: ApplicationIn, user: UserDB, applicant: UserSnapshot,
                              newId: ObjectId, now: int)
    requires applicant.id == user.id
    ensures ApplyAsWritten(st, data, user).state == st
    ensures ApplyStep(st, data, applicant, newId, now).result.Success? <==>
      ApplyAsWritten(st, data, user).result == Failure(HttpError(500, InternalServerError))
    ensures ApplyStep(st, data, applicant, newId, now).result.Failure? ==>
      ApplyStep(st, data, applicant, newId, now) == ApplyAsWritten(st, data, user)
  {
  }

  /** The applications of `userId` to `eventId` survive any status change. */
  lemma {:induction false} StatusChangeKeepsApplicationOf(s: seq<ApplicationDB>, appId: ObjectId,
                                                          f: ApplicationDB -> ApplicationDB, userId: ObjectId, eventId: ObjectId)
    requires forall a :: f(a).userId == a.userId && f(a).data.eventId == a.data.eventId
    requires exists a :: a in s && a.userId == userId && a.data.eventId == eventId
    ensures exists a :: a in UpdateFirst(s, ApplicationIdIs(appId), f) && a.userId == userId && a.data.eventId == eventId
  {
    var a :| a in s && a.userId == userId && a.data.eventId == eventId;
    var i :| 0 <= i < |s| && s[i] == a;
    var r := UpdateFirst(s, ApplicationIdIs(appId), f);
    assert r[i] == s[i] || r[i] == f(s[i]);
    assert r[i] in r;
  }

  /** Cancelling does not free the slot: after applying and cancelling, applying again to the
      same event is still refused. */
  lemma NoReapplyAfterCancel(st: StoreState, data: ApplicationIn, applicant: UserSnapshot, newId: ObjectId, now: int,
                             later: int, data2: ApplicationIn, newId2: ObjectId, now2: int)
    requires ApplyStep(st, data, applicant, newId, now).result.Success?
    requires data2.eventId == data.eventId
    ensures var st2 := ApplyStep(st, data, applicant, newId, now).state;
      var st3 := CancelStep(st2, newId, applicant.id, later).state;
      ApplyStep(st3, data2, applicant, newId2, now2).result == Failure(HttpError(400, AlreadyApplied))
  {
    var st2 := ApplyStep(st, data, applicant, newId, now).state;
    var added := st2.applications[|st2.applications| - 1];
    assert added in st2.applications;
    var f := (a: ApplicationDB) => a.(status := Cancelled, updatedAt := Some(later));
    StatusChangeKeepsApplicationOf(st2.applications, newId, f, applicant.id, data.eventId);
    var st3 := CancelStep(st2, newId, applicant.id, later).state;
    assert st3.events == st.events;
  }

  /** Cancelling is repeatable: once cancelled, the owner can cancel the application again. */
  lemma CancelAgain(st: StoreState, appId: ObjectId, userId: ObjectId, now: int, later: int)
    requires CancelStep(st, appId, userId, now).result.Success?
    ensures var st2 := CancelStep(st, appId, userId, now).state;
      FindApplication(st2, appId).Some? && FindApplication(st2, appId).value.status == Cancelled
      && CancelStep(st2, appId, userId, later).result.Success?
  {
    FindAfterUpdate(st.applications, ApplicationIdIs(appId), (a: ApplicationDB) => a.(status := Cancelled, updatedAt := Some(now)));
  }

  /** The owning organisation's decision is written whatever the current status: even a
      cancelled application can be accepted. */
  lemma CancelledCanBeAccepted(st: StoreState, appId: ObjectId, orgId: ObjectId, now: int)
    requires FindApplication(st, appId).Some? && FindApplication(st, appId).value.status == Cancelled
    requires FindEvent(st, FindApplication(st, appId).value.data.eventId).Some?
    requires FindEvent(st, FindApplication(st, appId).value.data.eventId).value.organisationId == orgId
    ensures var o := UpdateStatusStep(st, appId, ApplicationUpdate(Some(Accept), None), orgId, now);
      o.result.Success? && FindApplication(o.state, appId).Some? && FindApplication(o.state, appId).value.status == Accepted
  {
    FindAfterUpdate(st.applications, ApplicationIdIs(appId),
                    (a: ApplicationDB) => Updated(a, ApplicationUpdate(Some(Accept), None), now));
  }

  /** An organisation's decision never leaves the application pending or cancelled. */
  lemma DecisionIsFinal(st: StoreState, appId: ObjectId, d: OrgDecision, notes: Option<string>, orgId: ObjectId, now: int)
    requires UpdateStatusStep(st, appId, ApplicationUpdate(Some(d), notes), orgId, now).result.Success?
    ensures var st2 := UpdateStatusStep(st, appId, ApplicationUpdate(Some(d), notes), orgId, now).state;
      FindApplication(st2, appId).Some? && FindApplication(st2, appId).value.status == DecisionStatus(d)
      && FindApplication(st2, appId).value.status != Pending && FindApplication(st2, appId).value.status != Cancelled
  {
    FindAfterUpdate(st.applications, ApplicationIdIs(appId),
                    (a: ApplicationDB) => Updated(a, ApplicationUpdate(Some(d), notes), now));
  }

  /** In the organisation-wide listing the "unknown event" fallback is never used: every listed
      application is on one of the organisation's events, whose title it gets. */
  lemma OrgListingTitlesKnown(st: StoreState, orgId: ObjectId, a: ApplicationDB)
    requires a in LiveApplicationsOfOrganisation(st, orgId)
    ensures exists e :: (e in st.events && e.organisationId == orgId && e.id == a.data.eventId
                         && TitleIn(EventsOfOrganisation(st, orgId), a.data.eventId) == e.data.title)
  {
    var e :| e in st.events && e.organisationId == orgId && e.id == a.data.eventId;
    assert e in EventsOfOrganisation(st, orgId);
  }
}
