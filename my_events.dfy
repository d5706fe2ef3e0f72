/** The organisation's own event list: the upcoming, past and all views with their orders,
    and the actions offered per event. Dates are given as the instants `new Date(...)`
    parses them to, through `instant`. */
module MyEvents {
  import opened Wrappers
  import opened Sorting
  import opened ApiTypes

  datatype View = All | Upcoming | Past

  function StartOf(instant: string -> int): EventPublic -> int {
    (e: EventPublic) => instant(e.startDate)
  }

  /** `new Date(e.end_date) < now`; a missing end date gives an invalid date, never past. */
  predicate IsEventPast(e: EventPublic, now: int, instant: string -> int) {
    e.endDate.Some? && instant(e.endDate.value) < now
  }

  predicate IsUpcoming(e: EventPublic, now: int, instant: string -> int) {
    instant(e.startDate) > now
  }

  /** The sort key of the past view: later ends first. */
  function NegEndOf(instant: string -> int): EventPublic -> int {
    (e: EventPublic) => if e.endDate.Some? then -instant(e.endDate.value) else 0
  }

  function NegStartOf(instant: string -> int): EventPublic -> int {
    (e: EventPublic) => -instant(e.startDate)
  }

  /** Events yet to start, soonest first. */
  function UpcomingEvents(events: seq<EventPublic>, now: int, instant: string -> int): (r: seq<EventPublic>)
    ensures forall e :: e in r <==> e in events && IsUpcoming(e, now, instant)
    ensures SortedBy(r, StartOf(instant))
  {
    var kept := Filter(events, e => IsUpcoming(e, now, instant));
    SortBySorted(kept, StartOf(instant));
    SortByMembers(kept, StartOf(instant));
    SortBy(kept, StartOf(instant))
  }

  /** Events already over, most recently ended first. */
  function PastEvents(events: seq<EventPublic>, now: int, instant: string -> int): (r: seq<EventPublic>)
    ensures forall e :: e in r <==> e in events && IsEventPast(e, now, instant)
    ensures SortedBy(r, NegEndOf(instant))
  {
    var kept := Filter(events, e => IsEventPast(e, now, instant));
    SortBySorted(kept, NegEndOf(instant));
    SortByMembers(kept, NegEndOf(instant));
    SortBy(kept, NegEndOf(instant))
  }

  /** Every event, latest start first, sorted on a copy. */
  function AllEventsSorted(events: seq<EventPublic>, instant: string -> int): (r: seq<EventPublic>)
    ensures multiset(r) == multiset(events)
    ensures SortedBy(r, NegStartOf(instant))
  {
    SortBySorted(events, NegStartOf(instant));
    SortByPermutation(events, NegStartOf(instant));
    SortBy(events, NegStartOf(instant))
  }

  /** The list the chosen filter shows. */
  function FilteredEvents(view: View, events: seq<EventPublic>, now: int, instant: string -> int): seq<EventPublic> {
    match view
    case Upcoming => UpcomingEvents(events, now, instant)
    case Past => PastEvents(events, now, instant)
    case All => AllEventsSorted(events, instant)
  }

  /** The actions shown for one event. */
  datatype Actions = Actions(edit: bool, applications: bool, rateVolunteers: bool, delete: bool)

  function ActionsFor(e: EventPublic, now: int, instant: string -> int): (a: Actions)
    ensures a.edit <==> !IsEventPast(e, now, instant)
    ensures a.rateVolunteers <==> IsEventPast(e, now, instant)
    ensures a.applications && a.delete
  {
    var past := IsEventPast(e, now, instant);
    Actions(!past, true, past, true)
  }

  /** An event under way (started, not yet ended) shows up only in the full list, and
      offers editing but no volunteer rating. */
  lemma OngoingOnlyInAll(events: seq<EventPublic>, e: EventPublic, now: int, instant: string -> int)
    requires e in events && instant(e.startDate) <= now
    requires e.endDate.Some? && now <= instant(e.endDate.value)
    ensures e !in FilteredEvents(Upcoming, events, now, instant)
    ensures e !in FilteredEvents(Past, events, now, instant)
    ensures e in FilteredEvents(All, events, now, instant)
    ensures ActionsFor(e, now, instant).edit && !ActionsFor(e, now, instant).rateVolunteers
  {
    assert e in multiset(events);
  }

  /** An event with a start and an end in the past appears under past, and under upcoming
      only if its start lies ahead: the two views never share an event whose start
      precedes its end. */
  lemma UpcomingAndPastDisjoint(events: seq<EventPublic>, e: EventPublic, now: int, instant: string -> int)
    requires e.endDate.Some? && instant(e.startDate) <= instant(e.endDate.value)
    ensures !(e in FilteredEvents(Upcoming, events, now, instant) && e in FilteredEvents(Past, events, now, instant))
  {
  }
}
