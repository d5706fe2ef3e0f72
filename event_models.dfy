/** The event records of the server and the category enum. */
module EventModels {
  import opened Wrappers
  import opened UserModels

  datatype EventCategory = Sports | Cultural | Business | Eco | Festival | Concert | Education | Charity | Community | Other

  function CategoryValue(c: EventCategory): string {
    match c
    case Sports => "sports"
    case Cultural => "cultural"
    case Business => "business"
    case Eco => "eco"
    case Festival => "festival"
    case Concert => "concert"
    case Education => "education"
    case Charity => "charity"
    case Community => "community"
    case Other => "other"
  }

  const CategoryValues: seq<string> :=
    ["sports", "cultural", "business", "eco", "festival", "concert", "education", "charity", "community", "other"]

  function ParseCategory(s: string): (r: Option<EventCategory>)
    ensures r.Some? ==> CategoryValue(r.value) == s
  {
    if s == "sports" then Some(Sports)
    else if s == "cultural" then Some(Cultural)
    else if s == "business" then Some(Business)
    else if s == "eco" then Some(Eco)
    else if s == "festival" then Some(Festival)
    else if s == "concert" then Some(Concert)
    else if s == "education" then Some(Education)
    else if s == "charity" then Some(Charity)
    else if s == "community" then Some(Community)
    else if s == "other" then Some(Other)
    else None
  }

  /** A category is one of the ten listed values, and every value names one. */
  lemma CategoryRoundTrip(c: EventCategory, s: string)
    ensures ParseCategory(CategoryValue(c)) == Some(c)
    ensures ParseCategory(s).Some? <==> s in CategoryValues
    ensures |CategoryValues| == 10
  {
  }

  datatype EventIn = EventIn(
    title: string, description: string, startDate: int, endDate: int, location: string,
    category: EventCategory, maxVolunteers: Option<int>, image: Option<string>, tags: seq<string>)

  predicate ValidEventIn(e: EventIn) {
    LengthIn(e.title, 3, 200) && LengthIn(e.description, 10, 2000)
  }

  /** An `EventIn` built with the optional fields omitted. */
  function EventInDefaults(title: string, description: string, startDate: int, endDate: int,
                           location: string, category: EventCategory): (e: EventIn)
    ensures e.tags == [] && e.maxVolunteers.None? && e.image.None?
    ensures e.title == title && e.description == description && e.startDate == startDate && e.endDate == endDate
  {
    EventIn(title, description, startDate, endDate, location, category, None, None, [])
  }

  /** Nothing ties the dates together: an event ending before it starts is accepted. */
  lemma EndBeforeStartAccepted()
    ensures var e := EventInDefaults("Run", "A city run.", 10, 5, "Nis", Sports);
      ValidEventIn(e) && e.endDate < e.startDate
  {
  }

  datatype EventDB = EventDB(data: EventIn, id: ObjectId, createdAt: int, updatedAt: Option<int>, organisationId: ObjectId)

  /** `EventUpdate`: every field optional and unconstrained. */
  datatype EventUpdate = EventUpdate(
    title: Option<string>, description: Option<string>, startDate: Option<int>, endDate: Option<int>,
    location: Option<string>, category: Option<EventCategory>, maxVolunteers: Option<int>,
    image: Option<string>, tags: Option<seq<string>>)
}
