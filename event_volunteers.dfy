/** The organisation's page for rating the accepted volunteers of one event: resolving each
    volunteer's user id, detecting who was already rated, and the rating submission guard. */
module EventVolunteers {
  import opened Wrappers
  import opened Text
  import opened ApiClient
  import opened ApiTypes

  const MissingIdsMessage := "ID događaja i volontera su obavezni"
  const UserIdMissingMessage := "ID korisnika nije pronađen. Molimo osvežite stranicu."
  const NotEndedMessage := "Događaj još nije završen. Ocena se može dati samo nakon završetka događaja."
  const SubmitFallback := "Greška pri slanju ocene"

  /** `getUserId`: `_id`, `id` or `user_id` of the user info, else the id remembered for the
      username in `userIdMap`, else none. */
  function VolunteerUserId(info: UserInfo, userIdMap: map<string, string>): (r: Option<string>)
    ensures r.Some? ==> r.value != ""
    ensures Truthy(info.mongoId) ==> r == info.mongoId
    ensures !Truthy(info.mongoId) && Truthy(info.id) ==> r == info.id
    ensures !Truthy(info.mongoId) && !Truthy(info.id) && Truthy(info.userId) ==> r == info.userId
    ensures !Truthy(info.mongoId) && !Truthy(info.id) && !Truthy(info.userId) ==>
      (r.Some? <==> Truthy(info.username) && info.username.value in userIdMap && userIdMap[info.username.value] != "")
  {
    var direct := OrElse(OrElse(info.mongoId, info.id), info.userId);
    if Truthy(direct) then direct
    else if Truthy(info.username) && info.username.value in userIdMap && userIdMap[info.username.value] != "" then
      Some(userIdMap[info.username.value])
    else None
  }

  /** One accepted application prepared for display: its id, when `getUserId` resolves it
      (from the user info or the page's current map `stale`), is recorded for its username
      and the application is kept as it is; otherwise a lookup by username (`lookup`: its
      `_id || id`, `None` when the lookup fails or gives no id) supplies the id, and only
      then is the user info given that id. */
  function Enrich(app: ApplicationPublic, stale: map<string, string>, lookup: string -> Option<string>)
    : (r: (ApplicationPublic, Option<string>))
    ensures !Truthy(app.userInfo.username) ==> r == (app, None)
    ensures r.1.Some? ==>
      (r.1.value != "" && Truthy(app.userInfo.username) && VolunteerUserId(r.0.userInfo, stale) == r.1)
    ensures Truthy(app.userInfo.username) && VolunteerUserId(app.userInfo, stale).Some? ==>
      r == (app, VolunteerUserId(app.userInfo, stale))
    ensures Truthy(app.userInfo.username) && VolunteerUserId(app.userInfo, stale).None? ==>
      (r.1.Some? <==> Truthy(lookup(app.userInfo.username.value)))
    ensures r.0 == app || (r.1.Some? && VolunteerUserId(app.userInfo, stale).None? && r.1 == lookup(app.userInfo.username.value)
                           && r.0 == app.(userInfo := app.userInfo.(mongoId := r.1, id := r.1)))
  {
    var name := app.userInfo.username;
    if !Truthy(name) then (app, None)
    else match VolunteerUserId(app.userInfo, stale)
      case Some(id) => (app, Some(id))
      case None =>
        match lookup(name.value)
        case Some(id) =>
          if id != "" then (app.(userInfo := app.userInfo.(mongoId := Some(id), id := Some(id))), Some(id))
          else (app, None)
        case None => (app, None)
  }

  /** The accepted applications, enriched one by one, and the username → id map built on the
      way: it holds exactly the usernames whose id was resolved, each with a resolved id. */
  function EnrichAll(apps: seq<ApplicationPublic>, stale: map<string, string>, lookup: string -> Option<string>)
    : (r: (seq<ApplicationPublic>, map<string, string>))
    ensures |r.0| == |apps|
    ensures forall i :: 0 <= i < |apps| ==> r.0[i] == Enrich(apps[i], stale, lookup).0
    ensures forall i :: 0 <= i < |apps| ==> r.0[i].status == apps[i].status && r.0[i].userInfo.username == apps[i].userInfo.username
  {
    if apps == [] then ([], map[])
    else
      var init := apps[..|apps| - 1];
      var (prefix, m) := EnrichAll(init, stale, lookup);
      var (a, id) := Enrich(apps[|apps| - 1], stale, lookup);
      var m' := if id.Some? then m[a.userInfo.username.value := id.value] else m;
      assert forall i :: 0 <= i < |init| ==> init[i] == apps[i];
      (prefix + [a], m')
  }

  /** One enrichment step of EnrichAll: the map of the prefix, updated with the last
      application's id when it has one. */
  lemma EnrichAllLast(apps: seq<ApplicationPublic>, stale: map<string, string>, lookup: string -> Option<string>)
    requires apps != []
    ensures var r := Enrich(apps[|apps| - 1], stale, lookup);
      var m0 := EnrichAll(apps[..|apps| - 1], stale, lookup).1;
      && (r.1.Some? ==> Truthy(apps[|apps| - 1].userInfo.username)
                        && EnrichAll(apps, stale, lookup).1 == m0[apps[|apps| - 1].userInfo.username.value := r.1.value])
      && (r.1.None? ==> EnrichAll(apps, stale, lookup).1 == m0)
  {
  }

  /** Every entry of the map comes from an application with that username whose id was
      resolved to the entry's value. */
  lemma {:induction false} EnrichAllEntry(apps: seq<ApplicationPublic>, stale: map<string, string>,
                                          lookup: string -> Option<string>, k: string) returns (i: nat)
    requires k in EnrichAll(apps, stale, lookup).1
    ensures i < |apps| && apps[i].userInfo.username == Some(k)
    ensures Enrich(apps[i], stale, lookup).1 == Some(EnrichAll(apps, stale, lookup).1[k])
  {
    var init := apps[..|apps| - 1];
    var r := Enrich(apps[|apps| - 1], stale, lookup);
    EnrichAllLast(apps, stale, lookup);
    if r.1.Some? && k == apps[|apps| - 1].userInfo.username.value {
      i := |apps| - 1;
    } else {
      i := EnrichAllEntry(init, stale, lookup, k);
      assert apps[i] == init[i];
    }
  }

  /** Every application whose id was resolved has its username in the map. */
  lemma {:induction false} EnrichAllHas(apps: seq<ApplicationPublic>, stale: map<string, string>,
                                        lookup: string -> Option<string>, i: nat)
    requires i < |apps| && Enrich(apps[i], stale, lookup).1.Some?
    ensures apps[i].userInfo.username.value in EnrichAll(apps, stale, lookup).1
  {
    EnrichAllLast(apps, stale, lookup);
    if i < |apps| - 1 {
      var init := apps[..|apps| - 1];
      assert apps[i] == init[i];
      EnrichAllHas(init, stale, lookup, i);
    }
  }

  /** The map `loadVolunteers` builds holds exactly the usernames whose id was resolved, each
      with a non-empty id resolved for that username. */
  lemma EnrichAllMap(apps: seq<ApplicationPublic>, stale: map<string, string>, lookup: string -> Option<string>)
    ensures var m := EnrichAll(apps, stale, lookup).1;
      && (forall i :: 0 <= i < |apps| && Enrich(apps[i], stale, lookup).1.Some? ==> apps[i].userInfo.username.value in m)
      && (forall k :: k in m ==>
            && m[k] != ""
            && exists i :: 0 <= i < |apps| && apps[i].userInfo.username == Some(k) && Enrich(apps[i], stale, lookup).1 == Some(m[k]))
  {
    var m := EnrichAll(apps, stale, lookup).1;
    forall i | 0 <= i < |apps| && Enrich(apps[i], stale, lookup).1.Some?
      ensures apps[i].userInfo.username.value in m
    {
      EnrichAllHas(apps, stale, lookup, i);
    }
    forall k | k in m
      ensures m[k] != ""
      ensures exists i :: 0 <= i < |apps| && apps[i].userInfo.username == Some(k) && Enrich(apps[i], stale, lookup).1 == Some(m[k])
    {
      var i := EnrichAllEntry(apps, stale, lookup, k);
    }
  }

  /** A review as the page reads it: `event_id || event._id || event.id`, and `direction`. */
  datatype ReviewSeen = ReviewSeen(eventRef: Option<string>, direction: Option<string>)

  /** `String(x)` of a possibly undefined value. */
  function StringOf(x: Option<string>): string {
    if x.Some? then x.value else "undefined"
  }

  predicate IsRatingOfEvent(r: ReviewSeen, eventId: string) {
    StringOf(r.eventRef) == eventId
    && (r.direction == Some("org_to_user") || r.direction == Some("org-to-user"))
  }

  /** The user id `loadReviewedUsers` checks for a volunteer. */
  function CheckedUserId(app: ApplicationPublic, stale: map<string, string>, newMap: map<string, string>): Option<string> {
    var direct := VolunteerUserId(app.userInfo, stale);
    if direct.Some? then direct
    else if Truthy(app.userInfo.username) && app.userInfo.username.value in newMap && newMap[app.userInfo.username.value] != "" then
      Some(newMap[app.userInfo.username.value])
    else None
  }

  /** Whether the reviews fetched for `userId` (`None`: the request failed) show a rating
      of this event by an organisation. */
  predicate RatedFor(userId: string, eventId: string, reviewsFor: string -> Option<seq<ReviewSeen>>) {
    var rs := reviewsFor(userId);
    rs.Some? && exists r :: r in rs.value && IsRatingOfEvent(r, eventId)
  }

  /** The users `loadReviewedUsers` marks as rated. */
  function ReviewedUsers(apps: seq<ApplicationPublic>, stale: map<string, string>, newMap: map<string, string>,
                         eventId: Option<string>, reviewsFor: string -> Option<seq<ReviewSeen>>): (s: set<string>)
    ensures forall u :: u in s <==>
      Truthy(eventId) && exists a :: a in apps && CheckedUserId(a, stale, newMap) == Some(u) && RatedFor(u, eventId.value, reviewsFor)
  {
    if apps == [] then {}
    else
      var init := apps[..|apps| - 1];
      var last := apps[|apps| - 1];
      assert forall a :: a in apps <==> a in init || a == last;
      var id := CheckedUserId(last, stale, newMap);
      ReviewedUsers(init, stale, newMap, eventId, reviewsFor)
        + (if Truthy(eventId) && id.Some? && RatedFor(id.value, eventId.value, reviewsFor) then {id.value} else {})
  }

  /** `err?.message || err?.detail || fallback`: the error's own text. */
  function RawSubmitError(e: Thrown): (raw: string)
    ensures raw != ""
    ensures e.ApiError? && e.message != "" ==> raw == e.message
    ensures e.ApiError? && e.message == "" ==>
      raw == (if e.detail.DetailText? && e.detail.text != "" then e.detail.text else SubmitFallback)
    ensures e.Rethrown? ==> raw == (if e.text != "" then e.text else SubmitFallback)
  {
    match e
    case ApiError(msg, _, detail) =>
      if msg != "" then msg else if detail.DetailText? && detail.text != "" then detail.text else SubmitFallback
    case Rethrown(_, text) => if text != "" then text else SubmitFallback
  }

  /** The lower-cased text speaks of the event not having ended. */
  predicate SpeaksOfEnd(d: string) {
    Contains(d, "završen") || Contains(d, "ended") || Contains(d, "finished")
  }

  /** The message shown when the rating request fails: the error's own text, replaced by the
      fixed "not finished" message when it speaks of the event not having ended. */
  function SubmitErrorMessage(e: Thrown): (m: string)
    ensures m != ""
    ensures SpeaksOfEnd(Lower(RawSubmitError(e))) ==> m == NotEndedMessage
    ensures !SpeaksOfEnd(Lower(RawSubmitError(e))) ==> m == RawSubmitError(e)
  {
    var raw := RawSubmitError(e);
    if SpeaksOfEnd(Lower(raw)) then NotEndedMessage else raw
  }

  /** `loadReviewedUsers`: asks for each volunteer's reviews and collects those rated for
      this event. */
  method LoadReviewedUsers(apps: seq<ApplicationPublic>, stale: map<string, string>, newMap: map<string, string>,
                           eventId: Option<string>, reviewsFor: string -> Option<seq<ReviewSeen>>)
    returns (reviewedSet: set<string>)
    ensures reviewedSet == ReviewedUsers(apps, stale, newMap, eventId, reviewsFor)
  {
    reviewedSet := {};
    for i := 0 to |apps|
      invariant reviewedSet == ReviewedUsers(apps[..i], stale, newMap, eventId, reviewsFor)
    {
      assert apps[..i + 1][..i] == apps[..i];
      var userId := CheckedUserId(apps[i], stale, newMap);
      if userId.Some? && Truthy(eventId) {
        var rs := reviewsFor(userId.value);
        if rs.Some? && exists r :: r in rs.value && IsRatingOfEvent(r, eventId.value) {
          reviewedSet := reviewedSet + {userId.value};
        }
      }
    }
    assert apps[..|apps|] == apps;
  }

  /** What fetching a user by username gave: a failure, or the user's `_id || id`. */
  datatype UserFetch = FetchFailed | Fetched(id: Option<string>)

  datatype PageState = PageState(
    volunteers: seq<ApplicationPublic>, userIdMap: map<string, string>, reviewed: set<string>,
    selected: Option<ApplicationPublic>, reviewError: string, submitted: seq<string>)

  /** `loadVolunteers` and the `loadReviewedUsers` it ends with. `response` is the list the
      server returned (`None`: the request failed or the answer was not a list). */
  function LoadStep(st: PageState, response: Option<seq<ApplicationPublic>>, eventId: Option<string>,
                    lookup: string -> Option<string>, reviewsFor: string -> Option<seq<ReviewSeen>>): PageState {
    match response
    case None => st
    case Some(apps) =>
      var accepted := WithStatus(apps, "accepted");
      var (enriched, newMap) := EnrichAll(accepted, st.userIdMap, lookup);
      st.(volunteers := enriched, userIdMap := newMap,
          reviewed := ReviewedUsers(enriched, st.userIdMap, newMap, eventId, reviewsFor))
  }

  /** `handleReviewSubmit`, given the user fetch and the rating request's outcome
      (`None`: it succeeds). */
  function SubmitStep(st: PageState, eventId: Option<string>, fetch: string -> UserFetch,
                      outcome: Option<Thrown>): PageState {
    if !Truthy(eventId) || st.selected.None? then st.(reviewError := MissingIdsMessage)
    else
      var info := st.selected.value.userInfo;
      var direct := VolunteerUserId(info, st.userIdMap);
      if direct.None? && Truthy(info.username) && fetch(info.username.value).FetchFailed? then
        st.(reviewError := UserIdMissingMessage)
      else
        var fetched := if direct.None? && Truthy(info.username) then fetch(info.username.value).id else None;
        var userId := if direct.Some? then direct else if Truthy(fetched) then fetched else None;
        var map1 := if direct.None? && Truthy(info.username) && Truthy(fetched) then st.userIdMap[info.username.value := fetched.value]
                    else st.userIdMap;
        if userId.None? then st.(userIdMap := map1, reviewError := UserIdMissingMessage)
        else
          var sent := st.(userIdMap := map1, submitted := st.submitted + [userId.value], reviewError := "");
          match outcome
          case None => sent.(reviewed := st.reviewed + {userId.value}, selected := None)
          case Some(e) => sent.(reviewError := SubmitErrorMessage(e))
  }

  class VolunteersPage {
    var volunteers: seq<ApplicationPublic>
    var userIdMap: map<string, string>
    var reviewed: set<string>
    var selected: Option<ApplicationPublic>
    var reviewError: string
    var submitted: seq<string>

    function Snapshot(): PageState
      reads this
    {
      PageState(volunteers, userIdMap, reviewed, selected, reviewError, submitted)
    }

    constructor()
      ensures Snapshot() == PageState([], map[], {}, None, "", [])
    {
      volunteers, userIdMap, reviewed := [], map[], {};
      selected, reviewError, submitted := None, "", [];
    }

    /** `openReviewModal` without its id prefetch. */
    method SelectVolunteer(v: ApplicationPublic)
      modifies this
      ensures Snapshot() == old(Snapshot()).(selected := Some(v), reviewError := "")
    {
      selected := Some(v);
      reviewError := "";
    }

    method LoadVolunteers(response: Option<seq<ApplicationPublic>>, eventId: Option<string>,
                          lookup: string -> Option<string>, reviewsFor: string -> Option<seq<ReviewSeen>>)
      modifies this
      ensures Snapshot() == LoadStep(old(Snapshot()), response, eventId, lookup, reviewsFor)
    {
      if response.None? {
        return;
      }
      var accepted := WithStatus(response.value, "accepted");
      var (enriched, newMap) := EnrichAll(accepted, userIdMap, lookup);
      var stale := userIdMap;
      volunteers := enriched;
      userIdMap := newMap;
      var reviewedSet := LoadReviewedUsers(enriched, stale, newMap, eventId, reviewsFor);
      reviewed := reviewedSet;
    }

    method HandleReviewSubmit(eventId: Option<string>, fetch: string -> UserFetch, outcome: Option<Thrown>)
      modifies this
      ensures Snapshot() == SubmitStep(old(Snapshot()), eventId, fetch, outcome)
    {
      if !Truthy(eventId) || selected.None? {
        reviewError := MissingIdsMessage;
        return;
      }
      var info := selected.value.userInfo;
      var userId := VolunteerUserId(info, userIdMap);
      if userId.None? && Truthy(info.username) {
        var f := fetch(info.username.value);
        if f.FetchFailed? {
          reviewError := UserIdMissingMessage;
          return;
        }
        userId := if Truthy(f.id) then f.id else None;
        if Truthy(f.id) {
          userIdMap := userIdMap[info.username.value := f.id.value];
        }
      }
      if userId.None? {
        reviewError := UserIdMissingMessage;
        return;
      }
      reviewError := "";
      submitted := submitted + [userId.value];
      match outcome {
        case None =>
          reviewed := reviewed + {userId.value};
          selected := None;
        case Some(e) =>
          reviewError := SubmitErrorMessage(e);
      }
    }
  }
}

module EventVolunteersProperties {
  import opened Wrappers
  import opened ApiClient
  import opened ApiTypes
  import opened EventVolunteers

  /** Only accepted applications become volunteers, and all of them do. */
  lemma OnlyAcceptedVolunteers(st: PageState, apps: seq<ApplicationPublic>, eventId: Option<string>,
                               lookup: string -> Option<string>, reviewsFor: string -> Option<seq<ReviewSeen>>)
    ensures var v := LoadStep(st, Some(apps), eventId, lookup, reviewsFor).volunteers;
      (forall i :: 0 <= i < |v| ==> v[i].status == "accepted")
      && |v| == |WithStatus(apps, "accepted")|
  {
    var accepted := WithStatus(apps, "accepted");
    forall i | 0 <= i < |accepted| ensures accepted[i].status == "accepted" {
      assert accepted[i] in accepted;
    }
  }

  /** A load stores each accepted application as it arrived, except that a volunteer whose id
      neither its user info nor the current map gives, and whom the lookup by username finds,
      gets that id in its user info; the new map holds exactly the resolved usernames. */
  lemma LoadedVolunteers(st: PageState, apps: seq<ApplicationPublic>, eventId: Option<string>,
                         lookup: string -> Option<string>, reviewsFor: string -> Option<seq<ReviewSeen>>)
    ensures var acc := WithStatus(apps, "accepted");
      var after := LoadStep(st, Some(apps), eventId, lookup, reviewsFor);
      && |after.volunteers| == |acc|
      && (forall i :: 0 <= i < |acc| && VolunteerUserId(acc[i].userInfo, st.userIdMap).Some? ==>
            after.volunteers[i] == acc[i])
      && (forall i :: 0 <= i < |acc| && Truthy(acc[i].userInfo.username) && VolunteerUserId(acc[i].userInfo, st.userIdMap).Some? ==>
            acc[i].userInfo.username.value in after.userIdMap)
      && (forall i :: 0 <= i < |acc| && after.volunteers[i] != acc[i] ==>
            && Truthy(acc[i].userInfo.username)
            && VolunteerUserId(acc[i].userInfo, st.userIdMap).None?
            && Truthy(lookup(acc[i].userInfo.username.value))
            && after.volunteers[i].userInfo
               == acc[i].userInfo.(mongoId := lookup(acc[i].userInfo.username.value), id := lookup(acc[i].userInfo.username.value)))
  {
    var acc := WithStatus(apps, "accepted");
    var e := EnrichAll(acc, st.userIdMap, lookup);
    var after := LoadStep(st, Some(apps), eventId, lookup, reviewsFor);
    assert after.volunteers == e.0 && after.userIdMap == e.1;
    EnrichAllMap(acc, st.userIdMap, lookup);
    forall i | 0 <= i < |acc| && VolunteerUserId(acc[i].userInfo, st.userIdMap).Some?
      ensures e.0[i] == acc[i]
    {
      if !Truthy(acc[i].userInfo.username) {
        assert Enrich(acc[i], st.userIdMap, lookup) == (acc[i], None);
      }
    }
  }

  /** The server's `PublicReview` carries neither an event id nor a direction, so every review
      the page reads is `ReviewSeen(None, None)`. With such reviews no volunteer is ever
      detected as rated, and a reload drops the marks set by earlier submissions. */
  lemma ServerReviewsNeverMark(st: PageState, apps: seq<ApplicationPublic>, eventId: Option<string>,
                               lookup: string -> Option<string>, reviewsFor: string -> Option<seq<ReviewSeen>>)
    requires forall u :: reviewsFor(u).Some? ==> forall r :: r in reviewsFor(u).value ==> r == ReviewSeen(None, None)
    ensures LoadStep(st, Some(apps), eventId, lookup, reviewsFor).reviewed == {}
  {
    if Truthy(eventId) {
      forall u ensures !RatedFor(u, eventId.value, reviewsFor) {
        if reviewsFor(u).Some? {
          forall x | x in reviewsFor(u).value ensures !IsRatingOfEvent(x, eventId.value) {
            assert x == ReviewSeen(None, None);
          }
        }
      }
    }
  }

  /** Without a resolvable user id, submitting makes no rating request and shows an error. */
  lemma NoUserIdNoRequest(st: PageState, eventId: Option<string>, fetch: string -> UserFetch, o: Option<Thrown>)
    requires Truthy(eventId) && st.selected.Some?
    requires VolunteerUserId(st.selected.value.userInfo, st.userIdMap).None?
    requires !Truthy(st.selected.value.userInfo.username)
    ensures SubmitStep(st, eventId, fetch, o).submitted == st.submitted
    ensures SubmitStep(st, eventId, fetch, o).reviewError == UserIdMissingMessage
  {
  }

  /** A successful rating request adds exactly its user to the rated set; a submission never
      removes anyone from it. */
  lemma SubmitGrowsReviewed(st: PageState, eventId: Option<string>, fetch: string -> UserFetch, o: Option<Thrown>)
    ensures st.reviewed <= SubmitStep(st, eventId, fetch, o).reviewed
    ensures var r := SubmitStep(st, eventId, fetch, o);
      |r.submitted| == |st.submitted| + 1 && o.None? ==> r.reviewed == st.reviewed + {r.submitted[|st.submitted|]}
    ensures var r := SubmitStep(st, eventId, fetch, o);
      |r.submitted| == |st.submitted| || |r.submitted| == |st.submitted| + 1
  {
  }

  /** The reload that follows a successful rating rebuilds the rated set from the server's
      reviews, which carry no event id or direction: the user just marked as rated is
      unmarked again, together with everyone else. */
  lemma ReloadForgetsSubmittedRating(st: PageState, eventId: Option<string>, fetch: string -> UserFetch,
                                     apps: seq<ApplicationPublic>, lookup: string -> Option<string>,
                                     reviewsFor: string -> Option<seq<ReviewSeen>>)
    requires forall u :: reviewsFor(u).Some? ==> forall r :: r in reviewsFor(u).value ==> r == ReviewSeen(None, None)
    requires |SubmitStep(st, eventId, fetch, None).submitted| == |st.submitted| + 1
    ensures var after := SubmitStep(st, eventId, fetch, None);
      && after.submitted[|st.submitted|] in after.reviewed
      && LoadStep(after, Some(apps), eventId, lookup, reviewsFor).reviewed == {}
  {
    var after := SubmitStep(st, eventId, fetch, None);
    ServerReviewsNeverMark(after, apps, eventId, lookup, reviewsFor);
  }
}
