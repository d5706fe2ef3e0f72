/** The volunteer's own applications: the event lookup by title, when the organisation may
    be reviewed, and the actions shown per application. */
module MyApplications {
  import opened Wrappers
  import opened Text
  import opened ApiTypes

  /** A trailing `[+-]dd:dd` time-zone offset. */
  predicate HasOffsetSuffix(d: string) {
    |d| >= 6 && (d[|d| - 6] == '+' || d[|d| - 6] == '-')
    && IsDigit(d[|d| - 5]) && IsDigit(d[|d| - 4]) && d[|d| - 3] == ':'
    && IsDigit(d[|d| - 2]) && IsDigit(d[|d| - 1])
  }

  /** The text whose date is compared: an end date without a 'Z' or an offset is read as UTC
      by appending 'Z' when it has a time part; otherwise the original text is parsed. */
  function EndDateText(endDate: string): (t: string)
    ensures var d := Trim(endDate);
      && (!EndsWith(d, "Z") && !HasOffsetSuffix(d) && ContainsChar(d, 'T') ==> t == d + "Z")
      && (!EndsWith(d, "Z") && !HasOffsetSuffix(d) && !ContainsChar(d, 'T') ==> t == d)
      && (EndsWith(d, "Z") || HasOffsetSuffix(d) ==> t == endDate)
  {
    var d := Trim(endDate);
    if !EndsWith(d, "Z") && !HasOffsetSuffix(d) then d + (if ContainsChar(d, 'T') then "Z" else "")
    else endDate
  }

  /** A text with an explicit zone is left alone, and marking as UTC happens at most once:
      the marked text is itself left alone. */
  lemma EndDateTextStable(endDate: string)
    ensures var t := EndDateText(endDate);
      ContainsChar(Trim(endDate), 'T') && Trim(endDate) == endDate ==> EndDateText(t) == t
  {
    var d := Trim(endDate);
    var t := EndDateText(endDate);
    if ContainsChar(d, 'T') && d == endDate && !EndsWith(d, "Z") && !HasOffsetSuffix(d) {
      assert t == d + "Z";
      assert t[|t| - 1] == 'Z';
      TrimOfTrimmed(t);
      assert EndsWith(t, "Z") by { assert t[|t| - 1..] == "Z"; }
    }
  }

  /** `canReview`: an accepted application whose event was loaded, has an end date, and has
      ended by `now`. `instant` is `new Date(...)`, `None` for an invalid date. */
  function CanReview(app: ApplicationPublic, events: map<string, EventPublic>, now: int,
                     instant: string -> Option<int>): (r: bool)
    ensures app.status != "accepted" ==> !r
    ensures app.eventTitle !in events || !Truthy(events[app.eventTitle].endDate) ==> !r
    ensures r <==>
      (app.status == "accepted" && app.eventTitle in events && Truthy(events[app.eventTitle].endDate)
       && instant(EndDateText(events[app.eventTitle].endDate.value)).Some?
       && instant(EndDateText(events[app.eventTitle].endDate.value)).value <= now)
  {
    if app.status != "accepted" then false
    else if app.eventTitle !in events || !Truthy(events[app.eventTitle].endDate) then false
    else
      var t := instant(EndDateText(events[app.eventTitle].endDate.value));
      t.Some? && t.value <= now
  }

  /** `event.id || event._id || null` of the event loaded for the application's title. */
  function GetEventId(app: ApplicationPublic, events: map<string, EventPublic>): (r: Option<string>)
    ensures app.eventTitle !in events ==> r.None?
    ensures r.Some? ==> Truthy(r)
    ensures app.eventTitle in events && Truthy(events[app.eventTitle].id) ==> r == events[app.eventTitle].id
    ensures app.eventTitle in events && !Truthy(events[app.eventTitle].id) ==>
      r == (if Truthy(events[app.eventTitle].mongoId) then events[app.eventTitle].mongoId else None)
  {
    if app.eventTitle !in events then None
    else
      var e := events[app.eventTitle];
      var v := OrElse(e.id, e.mongoId);
      if Truthy(v) then v else None
  }

  /** `loadApplications`' loop: the event of each application's title, where the lookup
      succeeded (`fetch` answers the lookup by title). */
  method BuildEventMap(apps: seq<ApplicationPublic>, fetch: string -> Option<EventPublic>)
    returns (events: map<string, EventPublic>)
    ensures events.Keys == set a | a in apps && fetch(a.eventTitle).Some? :: a.eventTitle
    ensures forall t :: t in events ==> fetch(t) == Some(events[t])
  {
    events := map[];
    for i := 0 to |apps|
      invariant events.Keys == set a | a in apps[..i] && fetch(a.eventTitle).Some? :: a.eventTitle
      invariant forall t :: t in events ==> fetch(t) == Some(events[t])
    {
      assert apps[..i + 1] == apps[..i] + [apps[i]];
      var title := apps[i].eventTitle;
      var found := fetch(title);
      if found.Some? {
        events := events[title := found.value];
      }
    }
    assert apps[..|apps|] == apps;
  }

  /** The actions shown for one application. `cancelTarget` is the id the cancel button sends. */
  datatype Actions = Actions(cancel: bool, cancelTarget: string, reviewLink: Option<string>)

  function ActionsFor(app: ApplicationPublic, index: nat, events: map<string, EventPublic>, now: int,
                      instant: string -> Option<int>): (a: Actions)
    ensures a.cancel <==> app.status == "pending"
    ensures a.reviewLink.Some? <==> CanReview(app, events, now, instant) && GetEventId(app, events).Some?
    ensures a.reviewLink.Some? ==> a.reviewLink == GetEventId(app, events) && app.status == "accepted"
  {
    var target := OrElse(OrElse(app.id, app.mongoId), app.applicationId);
    Actions(app.status == "pending",
            if Truthy(target) then target.value else NatToString(index),
            if CanReview(app, events, now, instant) then GetEventId(app, events) else None)
  }
}
