/** The organisation's view of one event's applications: loading the event, the review
    rule, the applicant id, the sections by status, the decision payload and the actions. */
module EventApplications {
  import opened Wrappers
  import opened Text
  import opened ApiTypes

  /** `loadEvent`: by id, else by title; when both fail, the id lookup's error is raised. */
  function LoadEvent<E>(byId: Result<EventPublic, E>, byTitle: Result<EventPublic, E>): (r: Result<EventPublic, E>)
    ensures byId.Success? ==> r == byId
    ensures byId.Failure? && byTitle.Success? ==> r == byTitle
    ensures byId.Failure? && byTitle.Failure? ==> r == Failure(byId.error)
  {
    if byId.Success? then byId
    else if byTitle.Success? then byTitle
    else Failure(byId.error)
  }

  /** `canReviewUser`: an accepted application for a loaded event whose end lies strictly
      before `now`. `instant` is `new Date(...)`, `None` for an invalid date. */
  function CanReviewUser(app: ApplicationPublic, event: Option<EventPublic>, now: int,
                         instant: string -> Option<int>): (r: bool)
    ensures r <==>
      (app.status == "accepted" && event.Some? && Truthy(event.value.endDate)
       && instant(event.value.endDate.value).Some? && instant(event.value.endDate.value).value < now)
  {
    if app.status != "accepted" then false
    else if event.None? || !Truthy(event.value.endDate) then false
    else
      var t := instant(event.value.endDate.value);
      t.Some? && t.value < now
  }

  /** `user_info._id || user_info.id || user_info.user_id || null` */
  function GetUserId(info: UserInfo): (r: Option<string>)
    ensures r.Some? ==> Truthy(r)
    ensures Truthy(info.mongoId) ==> r == info.mongoId
    ensures !Truthy(info.mongoId) && Truthy(info.id) ==> r == info.id
    ensures !Truthy(info.mongoId) && !Truthy(info.id) && Truthy(info.userId) ==> r == info.userId
    ensures r.None? <==> !Truthy(info.mongoId) && !Truthy(info.id) && !Truthy(info.userId)
  {
    var v := OrElse(OrElse(info.mongoId, info.id), info.userId);
    if Truthy(v) then v else None
  }

  /** `extraNotes.trim() || null`: the trimmed notes, or nothing when they are blank. */
  function NotesPayload(notes: string): (r: Option<string>)
    ensures r.None? <==> Trim(notes) == ""
    ensures r.Some? ==> r.value == Trim(notes) && r.value != ""
  {
    var t := Trim(notes);
    if t != "" then Some(t) else None
  }

  /** Sending the payload's notes again sends the same notes. */
  lemma NotesPayloadStable(notes: string)
    ensures NotesPayload(notes).Some? ==> NotesPayload(NotesPayload(notes).value) == NotesPayload(notes)
  {
    TrimIdempotent(notes);
  }

  /** The three sections of the page. */
  datatype Sections = Sections(pending: seq<ApplicationPublic>, accepted: seq<ApplicationPublic>,
                               rejected: seq<ApplicationPublic>)

  function SectionsOf(apps: seq<ApplicationPublic>): Sections {
    Sections(WithStatus(apps, "pending"), WithStatus(apps, "accepted"), WithStatus(apps, "rejected"))
  }

  predicate Shown(a: ApplicationPublic) {
    a.status == "pending" || a.status == "accepted" || a.status == "rejected"
  }

  function CountShown(apps: seq<ApplicationPublic>): nat {
    if apps == [] then 0 else (if Shown(apps[0]) then 1 else 0) + CountShown(apps[1..])
  }

  /** The sections partition the applications with one of the three statuses: each such
      application is in exactly the section of its status, and the section sizes add up. */
  lemma {:induction false} SectionsPartition(apps: seq<ApplicationPublic>)
    ensures var s := SectionsOf(apps); |s.pending| + |s.accepted| + |s.rejected| == CountShown(apps)
    ensures forall a :: a in apps && Shown(a) ==>
      var s := SectionsOf(apps);
      (a in s.pending <==> a.status == "pending") && (a in s.accepted <==> a.status == "accepted")
      && (a in s.rejected <==> a.status == "rejected")
    ensures forall a :: a in apps && !Shown(a) ==>
      var s := SectionsOf(apps); a !in s.pending && a !in s.accepted && a !in s.rejected
  {
    if apps != [] {
      SectionsPartition(apps[1..]);
    }
  }

  /** `app.id || app._id || app.application_id` */
  function AppId(app: ApplicationPublic): (r: Option<string>)
    ensures r.Some? <==> Truthy(app.id) || Truthy(app.mongoId) || Truthy(app.applicationId)
  {
    var v := OrElse(OrElse(app.id, app.mongoId), app.applicationId);
    if Truthy(v) then v else None
  }

  /** What a card shows below the details: the accept/reject buttons (for this id), the
      missing-id warning, or nothing. */
  datatype CardActions = Decide(appId: string) | MissingId | NoActions

  /** Only the pending section passes `showActions`. */
  function CardActionsFor(app: ApplicationPublic, showActions: bool): (r: CardActions)
    ensures r.Decide? <==> showActions && app.status == "pending" && AppId(app).Some?
    ensures r.Decide? ==> Some(r.appId) == AppId(app)
    ensures r.MissingId? <==> showActions && app.status == "pending" && AppId(app).None?
  {
    if showActions && app.status == "pending" then
      (match AppId(app) case Some(id) => Decide(id) case None => MissingId)
    else NoActions
  }

  /** Decisions are offered only in the pending section and only for pending applications. */
  lemma DecisionsOnlyForPending(apps: seq<ApplicationPublic>, a: ApplicationPublic)
    requires a in apps
    ensures a in SectionsOf(apps).pending ==> (CardActionsFor(a, true).Decide? <==> AppId(a).Some?)
    ensures a in SectionsOf(apps).accepted || a in SectionsOf(apps).rejected ==> CardActionsFor(a, false) == NoActions
  {
  }
}
