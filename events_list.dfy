/** The public event list: which endpoint is asked, which events are kept and in what
    order, the per-organisation rating summary, and the filter form's URL parameters. */
module EventsList {
  import opened Wrappers
  import opened Sorting
  import opened ApiTypes

  /** The four filters, as read from the URL (`None`: parameter absent). */
  datatype Filters = Filters(category: Option<string>, location: Option<string>,
                             dateFrom: Option<string>, dateTo: Option<string>)

  /** The request `loadEvents` makes: the filter endpoint with its (non-empty) values,
      or the plain list of all events. */
  datatype EventsRequest =
    | FilterEvents(category: Option<string>, location: Option<string>,
                   dateFrom: Option<string>, dateTo: Option<string>, tags: Option<seq<string>>)
    | GetAllEvents

  /** `x || null` */
  function OrNull(x: Option<string>): (r: Option<string>)
    ensures r.Some? <==> Truthy(x)
    ensures r.Some? ==> r == x
  {
    if Truthy(x) then x else None
  }

  predicate AnyFilter(f: Filters) {
    Truthy(f.category) || Truthy(f.location) || Truthy(f.dateFrom) || Truthy(f.dateTo)
  }

  function ChooseRequest(f: Filters): (r: EventsRequest)
    ensures r.FilterEvents? <==> AnyFilter(f)
    ensures r.FilterEvents? ==> r == FilterEvents(OrNull(f.category), OrNull(f.location),
                                                  OrNull(f.dateFrom), OrNull(f.dateTo), None)
  {
    if AnyFilter(f) then FilterEvents(OrNull(f.category), OrNull(f.location), OrNull(f.dateFrom), OrNull(f.dateTo), None)
    else GetAllEvents
  }

  /** An event stays listed when it has no end date or has not ended yet. */
  predicate NotEnded(e: EventPublic, now: int, instant: string -> int) {
    !Truthy(e.endDate) || instant(e.endDate.value) >= now
  }

  function StartKey(instant: string -> int): EventPublic -> int {
    (e: EventPublic) => instant(e.startDate)
  }

  /** The events shown: the ones not yet ended, soonest start first. */
  function ShownEvents(loaded: seq<EventPublic>, now: int, instant: string -> int): (r: seq<EventPublic>)
    ensures forall e :: e in r <==> e in loaded && NotEnded(e, now, instant)
    ensures SortedBy(r, StartKey(instant))
  {
    var kept := Filter(loaded, e => NotEnded(e, now, instant));
    SortBySorted(kept, StartKey(instant));
    SortByMembers(kept, StartKey(instant));
    SortBy(kept, StartKey(instant))
  }

  /** The distinct truthy organisation ids of a list, in order of first appearance: what the
      `Set` built by `forEach` iterates over. */
  function DistinctOrgIds(events: seq<EventPublic>): (ids: seq<string>)
    ensures forall k :: k in ids <==> exists e :: e in events && Truthy(e.organisationId) && e.organisationId.value == k
    ensures forall i, j :: 0 <= i < j < |ids| ==> ids[i] != ids[j]
  {
    if events == [] then []
    else
      var init := events[..|events| - 1];
      var last := events[|events| - 1];
      var d := DistinctOrgIds(init);
      assert forall e :: e in events <==> e in init || e == last;
      if Truthy(last.organisationId) && last.organisationId.value !in d then d + [last.organisationId.value] else d
  }

  /** What the rating endpoint answered. */
  datatype AvgReply = AvgFailed | AvgObject(avgRating: Option<real>) | AvgNumber(n: real) | AvgOther

  /** What the review list endpoint answered. */
  datatype ReviewsReply = ReviewsFailed | ReviewsList(count: nat) | ReviewsOther

  /** Both answers, or a failure outside the two caught calls. */
  datatype OrgReply = Replies(avg: AvgReply, reviews: ReviewsReply) | Crashed

  datatype OrgRating = OrgRating(avgRating: Option<real>, totalReviews: nat)

  /** `avgRatingData?.avg_rating || avgRatingData || null`, kept only when it is a number. */
  function AvgOf(a: AvgReply): (r: Option<real>)
    ensures r.Some? <==> (a.AvgObject? && a.avgRating.Some? && a.avgRating.value != 0.0) || (a.AvgNumber? && a.n != 0.0)
    ensures r.Some? ==> r.value == (if a.AvgNumber? then a.n else a.avgRating.value)
  {
    match a
    case AvgObject(Some(x)) => if x != 0.0 then Some(x) else None
    case AvgNumber(n) => if n != 0.0 then Some(n) else None
    case _ => None
  }

  function RatingFrom(reply: OrgReply): (r: OrgRating)
    ensures reply.Crashed? ==> r == OrgRating(None, 0)
    ensures reply.Replies? && !reply.reviews.ReviewsList? ==> r.totalReviews == 0
    ensures reply.Replies? && reply.reviews.ReviewsList? ==> r.totalReviews == reply.reviews.count
    ensures reply.Replies? && reply.avg.AvgFailed? ==> r.avgRating.None?
    ensures reply.Replies? ==> r.avgRating == AvgOf(reply.avg)
  {
    match reply
    case Crashed => OrgRating(None, 0)
    case Replies(avg, reviews) => OrgRating(AvgOf(avg), if reviews.ReviewsList? then reviews.count else 0)
  }

  /** `loadOrgRatings`: collect the distinct organisation ids, then ask once per id.
      `queried` lists the ids in the order the requests are made. */
  method LoadOrgRatings(events: seq<EventPublic>, reply: string -> OrgReply)
    returns (ratings: map<string, OrgRating>, queried: seq<string>)
    ensures queried == DistinctOrgIds(events)
    ensures forall i, j :: 0 <= i < j < |queried| ==> queried[i] != queried[j]
    ensures ratings.Keys == set k | k in queried
    ensures forall k :: k in ratings ==> ratings[k] == RatingFrom(reply(k))
  {
    var orgIds: seq<string> := [];
    var i := 0;
    while i < |events|
      invariant 0 <= i <= |events|
      invariant orgIds == DistinctOrgIds(events[..i])
    {
      assert events[..i + 1][..i] == events[..i];
      var e := events[i];
      if Truthy(e.organisationId) && e.organisationId.value !in orgIds {
        orgIds := orgIds + [e.organisationId.value];
      }
      i := i + 1;
    }
    assert events[..|events|] == events;
    ratings := map[];
    queried := [];
    for j := 0 to |orgIds|
      invariant queried == orgIds[..j]
      invariant ratings.Keys == set k | k in queried
      invariant forall k :: k in ratings ==> ratings[k] == RatingFrom(reply(k))
    {
      var id := orgIds[j];
      queried := queried + [id];
      ratings := ratings[id := RatingFrom(reply(id))];
    }
  }

  /** The filter form's current values. */
  datatype FilterForm = FilterForm(category: string, location: string, dateFrom: string, dateTo: string)

  /** `handleFilter`: a URL parameter per non-empty filter. */
  function HandleFilter(f: FilterForm): (params: map<string, string>)
    ensures "category" in params <==> f.category != ""
    ensures "location" in params <==> f.location != ""
    ensures "date_from" in params <==> f.dateFrom != ""
    ensures "date_to" in params <==> f.dateTo != ""
    ensures forall k :: k in params ==> k in {"category", "location", "date_from", "date_to"}
    ensures "category" in params ==> params["category"] == f.category
    ensures "location" in params ==> params["location"] == f.location
    ensures "date_from" in params ==> params["date_from"] == f.dateFrom
    ensures "date_to" in params ==> params["date_to"] == f.dateTo
  {
    var p0: map<string, string> := map[];
    var p1 := if f.category != "" then p0["category" := f.category] else p0;
    var p2 := if f.location != "" then p1["location" := f.location] else p1;
    var p3 := if f.dateFrom != "" then p2["date_from" := f.dateFrom] else p2;
    if f.dateTo != "" then p3["date_to" := f.dateTo] else p3
  }

  /** `searchParams.get(name)` */
  function Get(params: map<string, string>, name: string): Option<string> {
    if name in params then Some(params[name]) else None
  }

  function FiltersOf(params: map<string, string>): Filters {
    Filters(Get(params, "category"), Get(params, "location"), Get(params, "date_from"), Get(params, "date_to"))
  }

  /** Applying the form and reloading: the filter endpoint gets exactly the non-empty
      filters, and an empty form lists all events. */
  lemma FilterRoundTrip(f: FilterForm)
    ensures var r := ChooseRequest(FiltersOf(HandleFilter(f)));
      && (r.GetAllEvents? <==> f == FilterForm("", "", "", ""))
      && (r.FilterEvents? ==>
          && r.category == (if f.category != "" then Some(f.category) else None)
          && r.location == (if f.location != "" then Some(f.location) else None)
          && r.dateFrom == (if f.dateFrom != "" then Some(f.dateFrom) else None)
          && r.dateTo == (if f.dateTo != "" then Some(f.dateTo) else None)
          && r.tags.None?)
  {
  }
}
