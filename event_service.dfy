/** Events on the server: the filter query, and updating, fetching and deleting one event. */
module EventService {
  import opened Wrappers
  import opened Text
  import opened UserModels
  import opened EventModels
  import opened Database
  import Sorting

  const EventNotFound := "Event not found"
  const NotUpdated := "Event not found or not updated"
  const NotDeleted := "Event not found or not deleted"
  /** The `ValueError` message of `datetime.fromisoformat` for text it rejects. */
  function InvalidIsoDate(text: string): string {
    "Invalid isoformat string: '" + text + "'"
  }

  /** The `start_date` condition: `$gte` and `$lte` bounds. */
  datatype DateRange = DateRange(gte: Option<int>, lte: Option<int>)

  /** The query dict: `category`, `location` (a case-insensitive pattern), `tags` (`$in`) and
      `start_date`; an absent key is `None`. */
  datatype Query = Query(category: Option<string>, location: Option<string>, tags: Option<seq<string>>,
                         startDate: Option<DateRange>)

  /** `filter_events`' query. `parseIso` is `datetime.fromisoformat` (`None`: it raises). */
  function FilterQuery(category: Option<string>, tags: Option<seq<string>>, location: Option<string>,
                       dateFrom: Option<string>, dateTo: Option<string>, parseIso: string -> Option<int>)
    : (r: Result<Query, string>)
    ensures r.Failure? <==>
      (Truthy(dateFrom) && parseIso(dateFrom.value).None?) || (Truthy(dateTo) && parseIso(dateTo.value).None?)
    ensures r.Failure? ==>
      r.error == InvalidIsoDate(if Truthy(dateFrom) && parseIso(dateFrom.value).None? then dateFrom.value else dateTo.value)
    ensures r.Success? ==>
      && (r.value.category.Some? <==> Truthy(category))
      && (r.value.category.Some? ==> r.value.category == category)
      && (r.value.location.Some? <==> Truthy(location))
      && (r.value.location.Some? ==> r.value.location == location)
      && (r.value.tags.Some? <==> tags.Some? && tags.value != [])
      && (r.value.tags.Some? ==> r.value.tags == tags)
      && (r.value.startDate.Some? <==> Truthy(dateFrom) || Truthy(dateTo))
      && (r.value.startDate.Some? ==>
            (r.value.startDate.value.gte.Some? <==> Truthy(dateFrom))
            && (r.value.startDate.value.lte.Some? <==> Truthy(dateTo))
            && (Truthy(dateFrom) ==> r.value.startDate.value.gte == parseIso(dateFrom.value))
            && (Truthy(dateTo) ==> r.value.startDate.value.lte == parseIso(dateTo.value)))
  {
    var from := if Truthy(dateFrom) then parseIso(dateFrom.value) else None;
    var to := if Truthy(dateTo) then parseIso(dateTo.value) else None;
    if Truthy(dateFrom) && from.None? then Failure(InvalidIsoDate(dateFrom.value))
    else if Truthy(dateTo) && to.None? then Failure(InvalidIsoDate(dateTo.value))
    else
      Success(Query(
        if Truthy(category) then category else None,
        if Truthy(location) then location else None,
        if tags.Some? && tags.value != [] then tags else None,
        if Truthy(dateFrom) || Truthy(dateTo) then Some(DateRange(from, to)) else None))
  }

  /** `filter_events` filling the query dict key by key; a date that does not parse raises. */
  method BuildFilterQuery(category: Option<string>, tags: Option<seq<string>>, location: Option<string>,
                          dateFrom: Option<string>, dateTo: Option<string>, parseIso: string -> Option<int>)
    returns (r: Result<Query, string>)
    ensures r == FilterQuery(category, tags, location, dateFrom, dateTo, parseIso)
  {
    var query := Query(None, None, None, None);
    if Truthy(category) {
      query := query.(category := category);
    }
    if Truthy(location) {
      query := query.(location := location);
    }
    if tags.Some? && tags.value != [] {
      query := query.(tags := tags);
    }
    if Truthy(dateFrom) || Truthy(dateTo) {
      var dateFilter := DateRange(None, None);
      if Truthy(dateFrom) {
        var from := parseIso(dateFrom.value);
        if from.None? {
          return Failure(InvalidIsoDate(dateFrom.value));
        }
        dateFilter := dateFilter.(gte := from);
      }
      if Truthy(dateTo) {
        var to := parseIso(dateTo.value);
        if to.None? {
          return Failure(InvalidIsoDate(dateTo.value));
        }
        dateFilter := dateFilter.(lte := to);
      }
      query := query.(startDate := Some(dateFilter));
    }
    return Success(query);
  }

  /** Whether an event satisfies the query; the location pattern is matched as literal text,
      ignoring case. */
  predicate Matches(e: EventDB, q: Query) {
    && (q.category.Some? ==> CategoryValue(e.data.category) == q.category.value)
    && (q.location.Some? ==> Contains(Lower(e.data.location), Lower(q.location.value)))
    && (q.tags.Some? ==> exists t :: t in e.data.tags && t in q.tags.value)
    && (q.startDate.Some? ==>
          (q.startDate.value.gte.Some? ==> e.data.startDate >= q.startDate.value.gte.value)
          && (q.startDate.value.lte.Some? ==> e.data.startDate <= q.startDate.value.lte.value))
  }

  /** `EventRepository.filter_events` */
  function FilterEvents(st: StoreState, q: Query): (r: seq<EventDB>)
    ensures forall e :: e in r <==> e in st.events && Matches(e, q)
  {
    Sorting.Filter(st.events, (e: EventDB) => Matches(e, q))
  }

  /** `get_event_by_id` */
  function GetEventById(st: StoreState, id: ObjectId): (r: Result<EventDB, string>)
    ensures r.Failure? <==> forall e :: e in st.events ==> e.id != id
    ensures r.Failure? ==> r.error == EventNotFound
    ensures r.Success? ==> r.value in st.events && r.value.id == id
  {
    match FindEvent(st, id)
    case Some(e) => Success(e)
    case None => Failure(EventNotFound)
  }

  /** The stored event after `$set` of the given fields and `updated_at`. */
  function Updated(e: EventDB, u: EventUpdate, now: int): (r: EventDB)
    ensures r.id == e.id && r.organisationId == e.organisationId && r.createdAt == e.createdAt
    ensures r.updatedAt == Some(now)
    ensures u.title.None? ==> r.data.title == e.data.title
    ensures u.title.Some? ==> r.data.title == u.title.value
    ensures u.tags.None? ==> r.data.tags == e.data.tags
    ensures u.tags.Some? ==> r.data.tags == u.tags.value
  {
    var d := e.data;
    e.(data := EventIn(
         u.title.GetOr(d.title), u.description.GetOr(d.description), u.startDate.GetOr(d.startDate),
         u.endDate.GetOr(d.endDate), u.location.GetOr(d.location), u.category.GetOr(d.category),
         if u.maxVolunteers.Some? then u.maxVolunteers else d.maxVolunteers,
         if u.image.Some? then u.image else d.image,
         u.tags.GetOr(d.tags)),
       updatedAt := Some(now))
  }

  /** `update_event`: the store reports a change only when the event exists and its document
      differs afterwards. */
  function UpdateEventStep(st: StoreState, id: ObjectId, u: EventUpdate, now: int): (o: ValueOutcome)
    ensures o.result.Success? <==> FindEvent(st, id).Some? && Updated(FindEvent(st, id).value, u, now) != FindEvent(st, id).value
    ensures o.result.Failure? ==> o.result.error == NotUpdated && o.state == st
    ensures o.result.Success? ==> o.state == st.(events := UpdateFirst(st.events, EventIdIs(id), (e: EventDB) => Updated(e, u, now)))
  {
    match FindEvent(st, id)
    case None => ValueOutcome(st, Failure(NotUpdated))
    case Some(e) =>
      if Updated(e, u, now) == e then ValueOutcome(st, Failure(NotUpdated))
      else ValueOutcome(st.(events := UpdateFirst(st.events, EventIdIs(id), (e: EventDB) => Updated(e, u, now))), Success(()))
  }

  /** `delete_event` */
  function DeleteEventStep(st: StoreState, id: ObjectId): (o: ValueOutcome)
    ensures o.result.Success? <==> exists e :: e in st.events && e.id == id
    ensures o.result.Failure? ==> o.result.error == NotDeleted && o.state == st
    ensures o.result.Success? ==> |o.state.events| == |st.events| - 1 && o.state == st.(events := o.state.events)
    ensures o.result.Success? ==> forall e :: e in o.state.events ==> e in st.events
    ensures o.result.Success? ==> forall e :: e in st.events && e.id != id ==> e in o.state.events
  {
    match FindEvent(st, id)
    case None => ValueOutcome(st, Failure(NotDeleted))
    case Some(_) => ValueOutcome(st.(events := DeleteFirst(st.events, EventIdIs(id))), Success(()))
  }

  method UpdateEvent(db: Store, id: ObjectId, u: EventUpdate, now: int) returns (r: Result<(), string>)
    modifies db
    ensures ValueOutcome(db.Snapshot(), r) == UpdateEventStep(old(db.Snapshot()), id, u, now)
  {
    var e := FindEvent(db.Snapshot(), id);
    if e.None? || Updated(e.value, u, now) == e.value {
      return Failure(NotUpdated);
    }
    db.events := UpdateFirst(db.events, EventIdIs(id), (e: EventDB) => Updated(e, u, now));
    return Success(());
  }

  method DeleteEvent(db: Store, id: ObjectId) returns (r: Result<(), string>)
    modifies db
    ensures ValueOutcome(db.Snapshot(), r) == DeleteEventStep(old(db.Snapshot()), id)
  {
    if FindEvent(db.Snapshot(), id).None? {
      return Failure(NotDeleted);
    }
    db.events := DeleteFirst(db.events, EventIdIs(id));
    return Success(());
  }
}

module EventServiceProperties {
  import opened Wrappers
  import opened UserModels
  import opened EventModels
  import opened Database
  import opened EventService
  import Sorting

  /** With no criterion given, the query is empty and every event is returned. */
  lemma NoCriteriaReturnsAll(st: StoreState, parseIso: string -> Option<int>)
    ensures FilterQuery(None, None, None, None, None, parseIso) == Success(Query(None, None, None, None))
    ensures FilterEvents(st, Query(None, None, None, None)) == st.events
  {
    Sorting.FilterAll(st.events, (e: EventDB) => Matches(e, Query(None, None, None, None)));
  }

  /** An update at a new instant always reaches the store, and the stored event then carries
      the given fields. */
  lemma UpdateAtNewInstant(st: StoreState, id: ObjectId, u: EventUpdate, now: int)
    requires FindEvent(st, id).Some? && FindEvent(st, id).value.updatedAt != Some(now)
    ensures UpdateEventStep(st, id, u, now).result.Success?
    ensures FindEvent(UpdateEventStep(st, id, u, now).state, id) == Some(Updated(FindEvent(st, id).value, u, now))
  {
    FindAfterUpdate(st.events, EventIdIs(id), (e: EventDB) => Updated(e, u, now));
  }

  /** An update that changes nothing, repeated at the instant of the previous one, is reported
      as "not found or not updated" although the event exists. */
  lemma EmptyUpdateAtSameInstantFails(st: StoreState, id: ObjectId, now: int)
    requires FindEvent(st, id).Some? && FindEvent(st, id).value.updatedAt == Some(now)
    ensures UpdateEventStep(st, id, EventUpdate(None, None, None, None, None, None, None, None, None), now).result
         == Failure(NotUpdated)
  {
  }
}
