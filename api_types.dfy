/** The records the browser client receives from the server, with the members
    the modelled pages read. Absent or null members are `None`. */
module ApiTypes {
  import opened Wrappers

  /** `user_info` of an application: the applicant's identifiers. */
  datatype UserInfo = UserInfo(mongoId: Option<string>, id: Option<string>, userId: Option<string>, username: Option<string>)

  /** `ApplicationPublic`; `status` is one of "pending", "accepted", "rejected", "cancelled". */
  datatype ApplicationPublic = ApplicationPublic(
    id: Option<string>,
    mongoId: Option<string>,
    applicationId: Option<string>,
    eventTitle: string,
    userInfo: UserInfo,
    status: string,
    extraNotes: Option<string>)

  /** `EventPublic`; the dates are the ISO-8601 strings the server sends. */
  datatype EventPublic = EventPublic(
    id: Option<string>,
    mongoId: Option<string>,
    title: string,
    startDate: string,
    endDate: Option<string>,
    organisationId: Option<string>)

  /** `apps.filter(app => app.status === status)` */
  function WithStatus(apps: seq<ApplicationPublic>, status: string): (r: seq<ApplicationPublic>)
    ensures |r| <= |apps|
    ensures forall a :: a in r <==> a in apps && a.status == status
  {
    if apps == [] then []
    else if apps[0].status == status then [apps[0]] + WithStatus(apps[1..], status)
    else WithStatus(apps[1..], status)
  }
}
