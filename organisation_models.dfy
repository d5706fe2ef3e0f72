/** The organisation records of the server and their enums. */
module OrganisationModels {
  import opened Wrappers
  import opened Text
  import opened UserModels

  datatype OrganisationStatus = Pending | Approved | Rejected

  function StatusValue(s: OrganisationStatus): string {
    match s
    case Pending => "pending"
    case Approved => "approved"
    case Rejected => "rejected"
  }

  function ParseStatus(s: string): (r: Option<OrganisationStatus>)
    ensures r.Some? ==> StatusValue(r.value) == s
  {
    if s == "pending" then Some(Pending)
    else if s == "approved" then Some(Approved)
    else if s == "rejected" then Some(Rejected)
    else None
  }

  datatype OrganisationType = Official | Informal

  function TypeValue(t: OrganisationType): string {
    match t
    case Official => "official"
    case Informal => "informal"
  }

  function ParseType(s: string): (r: Option<OrganisationType>)
    ensures r.Some? ==> TypeValue(r.value) == s
  {
    if s == "official" then Some(Official) else if s == "informal" then Some(Informal) else None
  }

  /** The status enum is exactly {pending, approved, rejected}; the type enum exactly {official, informal}. */
  lemma EnumsRoundTrip(st: OrganisationStatus, t: OrganisationType, s: string)
    ensures ParseStatus(StatusValue(st)) == Some(st) && ParseType(TypeValue(t)) == Some(t)
    ensures ParseStatus(s).Some? <==> s in {"pending", "approved", "rejected"}
    ensures ParseType(s).Some? <==> s in {"official", "informal"}
  {
  }

  /** The characters of the username pattern `[a-z0-9_-]`. */
  predicate IsUsernameChar(c: char) {
    IsLower(c) || IsDigit(c) || c == '_' || c == '-'
  }

  /** `^[a-z0-9_-]{3,30}$` */
  predicate MatchesUsernamePattern(s: string) {
    LengthIn(s, 3, 30) && forall i :: 0 <= i < |s| ==> IsUsernameChar(s[i])
  }

  datatype OrganisationIn = OrganisationIn(
    username: string, name: string, email: string, password: string, description: string,
    location: string, phone: Option<string>, website: Option<string>, orgType: OrganisationType)

  predicate ValidOrganisationIn(o: OrganisationIn) {
    && MatchesUsernamePattern(o.username)
    && LengthIn(o.name, 3, 100)
    && LengthIn(o.password, 6, 30)
    && |o.description| <= 300
  }

  /** An `OrganisationIn` built with `org_type`, `phone` and `website` omitted. */
  function OrganisationInDefaults(username: string, name: string, email: string, password: string,
                                  description: string, location: string): (o: OrganisationIn)
    ensures o.orgType == Official && o.phone.None? && o.website.None?
    ensures o.username == username && o.name == name && o.password == password && o.description == description
  {
    OrganisationIn(username, name, email, password, description, location, None, None, Official)
  }

  /** The only organisation role. */
  datatype OrganisationRole = OrganisationRoleValue

  datatype OrganisationDB = OrganisationDB(
    data: OrganisationIn, id: ObjectId, role: OrganisationRole, status: OrganisationStatus,
    createdAt: int, updatedAt: Option<int>, logo: Option<string>)

  /** An `OrganisationDB` built with the defaulted fields omitted. */
  function NewOrganisationDB(data: OrganisationIn, id: ObjectId, now: int): (o: OrganisationDB)
    ensures o.role == OrganisationRoleValue && o.status == Pending
    ensures o.updatedAt.None? && o.logo.None?
    ensures o.data == data && o.id == id && o.createdAt == now
  {
    OrganisationDB(data, id, OrganisationRoleValue, Pending, now, None, None)
  }

  datatype OrganisationUpdate = OrganisationUpdate(
    username: Option<string>, name: Option<string>, email: Option<string>, password: Option<string>,
    description: Option<string>, location: Option<string>, phone: Option<string>, website: Option<string>,
    status: Option<OrganisationStatus>, orgType: Option<OrganisationType>)

  predicate ValidOrganisationUpdate(p: OrganisationUpdate) {
    && (p.username.Some? ==> MatchesUsernamePattern(p.username.value))
    && (p.name.Some? ==> LengthIn(p.name.value, 3, 100))
    && (p.password.Some? ==> LengthIn(p.password.value, 6, 30))
    && (p.description.Some? ==> |p.description.value| <= 300)
  }

  /** An update that sets every field of an `OrganisationIn`. */
  function FullUpdate(o: OrganisationIn): OrganisationUpdate {
    OrganisationUpdate(Some(o.username), Some(o.name), Some(o.email), Some(o.password), Some(o.description),
                       Some(o.location), o.phone, o.website, None, Some(o.orgType))
  }

  /** All fields are optional, and a full update obeys exactly the bounds of registration. */
  lemma UpdateBoundsMatch(o: OrganisationIn)
    ensures ValidOrganisationUpdate(OrganisationUpdate(None, None, None, None, None, None, None, None, None, None))
    ensures ValidOrganisationUpdate(FullUpdate(o)) <==> ValidOrganisationIn(o)
  {
  }
}
