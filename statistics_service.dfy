/** The dashboard statistics of one organisation. */
module StatisticsService {
  import opened Wrappers
  import opened UserModels
  import opened ApplicationModels
  import opened EventModels
  import opened Database
  import opened ApplicationService
  import Sorting

  const OrganisationNotFound := "Organisation not found"

  /** A ratio kept exact: `avg_applications_per_event` before rounding. */
  datatype Ratio = Ratio(num: nat, den: nat)

  /** The title and start of the most recently created event. */
  datatype LastEvent = LastEvent(title: string, startDate: int)

  datatype Stats = Stats(
    organisationName: string, totalEvents: nat, totalApplications: nat, acceptedVolunteers: nat,
    rejectedOrCancelled: nat, avgApplicationsPerEvent: Ratio, activeEvents: nat, lastEvent: Option<LastEvent>)

  /** The position `max(events, key=created_at)` picks: the first with the greatest
      creation time. */
  function LatestIndex(events: seq<EventDB>): (i: nat)
    requires events != []
    ensures i < |events|
    ensures forall j :: 0 <= j < |events| ==> events[j].createdAt <= events[i].createdAt
    ensures forall j :: 0 <= j < i ==> events[j].createdAt < events[i].createdAt
  {
    if |events| == 1 then 0
    else
      var k := LatestIndex(events[1..]);
      if events[0].createdAt >= events[k + 1].createdAt then 0 else k + 1
  }

  /** `max(events, key=created_at)`, `None` for no events. */
  function LatestCreated(events: seq<EventDB>): (r: Option<EventDB>)
    ensures r.None? <==> events == []
    ensures r.Some? ==> r.value in events && forall e :: e in events ==> e.createdAt <= r.value.createdAt
    ensures r.Some? ==>
      exists i :: (0 <= i < |events| && events[i] == r.value
                   && forall j :: 0 <= j < i ==> events[j].createdAt < r.value.createdAt)
  {
    if events == [] then None
    else
      var i := LatestIndex(events);
      assert forall e :: e in events ==> exists j :: 0 <= j < |events| && events[j] == e;
      Some(events[i])
  }

  /** `find_by_multiple_events`: the applications on the given events, cancelled ones included. */
  function ApplicationsOnEvents(st: StoreState, events: seq<EventDB>): (r: seq<ApplicationDB>)
    ensures forall a :: a in r <==> a in st.applications && exists e :: e in events && e.id == a.data.eventId
  {
    Sorting.Filter(st.applications, (a: ApplicationDB) => FindFirst(events, EventIdIs(a.data.eventId)).Some?)
  }

  /** `get_organisation_stats`; the organisation is named by its username. */
  function OrganisationStats(st: StoreState, username: string, now: int): (r: Result<Stats, string>)
    ensures r.Failure? <==> FindOrganisationByUsername(st, username).None?
    ensures r.Failure? ==> r.error == OrganisationNotFound
  {
    match FindOrganisationByUsername(st, username)
    case None => Failure(OrganisationNotFound)
    case Some(org) =>
      var events := EventsOfOrganisation(st, org.id);
      if events == [] then Success(Stats(org.data.username, 0, 0, 0, 0, Ratio(0, 1), 0, None))
      else
        var apps := ApplicationsOnEvents(st, events);
        var latest := LatestCreated(events).value;
        Success(Stats(
          org.data.username, |events|, |apps|,
          |Sorting.Filter(apps, (a: ApplicationDB) => a.status == Accepted)|,
          |Sorting.Filter(apps, (a: ApplicationDB) => a.status == Rejected || a.status == Cancelled)|,
          Ratio(|apps|, |events|),
          |Sorting.Filter(events, (e: EventDB) => e.data.endDate >= now)|,
          Some(LastEvent(latest.data.title, latest.data.startDate))))
  }

  /** An organisation without events gets all-zero statistics and no last event. */
  lemma NoEventsAllZero(st: StoreState, username: string, now: int)
    requires FindOrganisationByUsername(st, username).Some?
    requires EventsOfOrganisation(st, FindOrganisationByUsername(st, username).value.id) == []
    ensures var s := OrganisationStats(st, username, now).value;
      s.totalEvents == 0 && s.totalApplications == 0 && s.acceptedVolunteers == 0 && s.rejectedOrCancelled == 0
      && s.activeEvents == 0 && s.lastEvent.None? && s.avgApplicationsPerEvent.num == 0
  {
  }

  /** Accepted plus rejected-or-cancelled never exceed the applications: the two filters pick
      disjoint sets of them. */
  lemma CountsConsistent(st: StoreState, username: string, now: int)
    requires OrganisationStats(st, username, now).Success?
    ensures var s := OrganisationStats(st, username, now).value;
      s.acceptedVolunteers + s.rejectedOrCancelled <= s.totalApplications
  {
    var org := FindOrganisationByUsername(st, username).value;
    var events := EventsOfOrganisation(st, org.id);
    if events != [] {
      var apps := ApplicationsOnEvents(st, events);
      Sorting.FilterDisjointCount(apps, (a: ApplicationDB) => a.status == Accepted,
                                  (a: ApplicationDB) => a.status == Rejected || a.status == Cancelled);
    }
  }

  /** Active events never exceed the events, the average has the events as its denominator,
      and the statistics carry the organisation's username. */
  lemma StatsShape(st: StoreState, username: string, now: int)
    requires OrganisationStats(st, username, now).Success?
    ensures var s := OrganisationStats(st, username, now).value;
      s.activeEvents <= s.totalEvents
      && s.avgApplicationsPerEvent == (if s.totalEvents == 0 then Ratio(0, 1) else Ratio(s.totalApplications, s.totalEvents))
      && s.organisationName == username
  {
  }

  /** The totals count the organisation's events and every application on them; the last event
      is one of its events created no earlier than any other. */
  lemma TotalsAndLastEvent(st: StoreState, username: string, now: int)
    requires OrganisationStats(st, username, now).Success?
    ensures var org := FindOrganisationByUsername(st, username).value;
      var events := EventsOfOrganisation(st, org.id);
      var s := OrganisationStats(st, username, now).value;
      s.totalEvents == |events|
      && s.totalApplications == |ApplicationsOnEvents(st, events)|
      && (s.lastEvent.Some? <==> events != [])
      && (s.lastEvent.Some? ==> exists e :: e in events && s.lastEvent.value == LastEvent(e.data.title, e.data.startDate)
                                 && forall e2 :: e2 in events ==> e2.createdAt <= e.createdAt)
  {
    var org := FindOrganisationByUsername(st, username).value;
    var events := EventsOfOrganisation(st, org.id);
    if events == [] {
      Sorting.FilterNone(st.applications, (a: ApplicationDB) => FindFirst(events, EventIdIs(a.data.eventId)).Some?);
    }
  }

  /** The status counts are the accepted applications and the rejected-or-cancelled ones among
      the applications on the organisation's events; the active events are those not yet ended. */
  lemma StatusAndActiveCounts(st: StoreState, username: string, now: int)
    requires OrganisationStats(st, username, now).Success?
    ensures var org := FindOrganisationByUsername(st, username).value;
      var events := EventsOfOrganisation(st, org.id);
      var apps := ApplicationsOnEvents(st, events);
      var s := OrganisationStats(st, username, now).value;
      s.acceptedVolunteers == |Sorting.Filter(apps, (a: ApplicationDB) => a.status == Accepted)|
      && s.rejectedOrCancelled == |Sorting.Filter(apps, (a: ApplicationDB) => a.status == Rejected || a.status == Cancelled)|
      && s.activeEvents == |Sorting.Filter(events, (e: EventDB) => e.data.endDate >= now)|
  {
    var org := FindOrganisationByUsername(st, username).value;
    var events := EventsOfOrganisation(st, org.id);
    if events == [] {
      Sorting.FilterNone(st.applications, (a: ApplicationDB) => FindFirst(events, EventIdIs(a.data.eventId)).Some?);
    }
  }
}
