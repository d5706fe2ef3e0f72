/** The application records of the server and their enums. */
module ApplicationModels {
  import opened Wrappers
  import opened UserModels

  datatype ApplicationStatus = Pending | Accepted | Rejected | Cancelled

  function StatusValue(s: ApplicationStatus): string {
    match s
    case Pending => "pending"
    case Accepted => "accepted"
    case Rejected => "rejected"
    case Cancelled => "cancelled"
  }

  function ParseStatus(s: string): (r: Option<ApplicationStatus>)
    ensures r.Some? ==> StatusValue(r.value) == s
  {
    if s == "pending" then Some(Pending)
    else if s == "accepted" then Some(Accepted)
    else if s == "rejected" then Some(Rejected)
    else if s == "cancelled" then Some(Cancelled)
    else None
  }

  /** The status enum is exactly {pending, accepted, rejected, cancelled}. */
  lemma StatusRoundTrip(st: ApplicationStatus, s: string)
    ensures ParseStatus(StatusValue(st)) == Some(st)
    ensures ParseStatus(s).Some? <==> s in {"pending", "accepted", "rejected", "cancelled"}
  {
  }

  /** An organisation's decision. */
  datatype OrgDecision = Accept | Reject

  function DecisionValue(d: OrgDecision): string {
    match d
    case Accept => "accepted"
    case Reject => "rejected"
  }

  /** The status a decision writes. */
  function DecisionStatus(d: OrgDecision): (s: ApplicationStatus)
    ensures StatusValue(s) == DecisionValue(d)
    ensures s != Pending && s != Cancelled
  {
    match d
    case Accept => Accepted
    case Reject => Rejected
  }

  datatype ApplicationIn = ApplicationIn(eventId: ObjectId, motivation: string, phone: string, extraNotes: Option<string>)

  predicate ValidApplicationIn(a: ApplicationIn) {
    LengthIn(a.motivation, 10, 500) && LengthIn(a.phone, 6, 20)
  }

  /** The applicant snapshot stored with an application. */
  datatype UserSnapshot = UserSnapshot(id: ObjectId, firstName: string, email: string, username: string)

  datatype ApplicationDB = ApplicationDB(
    data: ApplicationIn, id: ObjectId, status: ApplicationStatus, createdAt: int,
    updatedAt: Option<int>, userId: ObjectId, userInfo: UserSnapshot)

  /** An `ApplicationDB` built with `status` and `updated_at` omitted. */
  function NewApplicationDB(data: ApplicationIn, id: ObjectId, userId: ObjectId, info: UserSnapshot, now: int): (a: ApplicationDB)
    ensures a.status == Pending && a.updatedAt.None?
    ensures a.data == data && a.id == id && a.userId == userId && a.userInfo == info && a.createdAt == now
  {
    ApplicationDB(data, id, Pending, now, None, userId, info)
  }

  /** `ApplicationUpdate`: both fields optional. */
  datatype ApplicationUpdate = ApplicationUpdate(status: Option<OrgDecision>, extraNotes: Option<string>)

  /** The status an update leaves: the decision's, or the old one when none is given.
      An update can never set pending or cancelled. */
  function StatusAfterUpdate(old_: ApplicationStatus, u: ApplicationUpdate): (s: ApplicationStatus)
    ensures u.status.Some? ==> s != Pending && s != Cancelled
    ensures u.status.None? ==> s == old_
  {
    match u.status
    case Some(d) => DecisionStatus(d)
    case None => old_
  }
}
