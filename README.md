# Volunteering platform — a Dafny model of its core

The system is a platform where organisations publish volunteering events, volunteers apply to
them, organisations accept or reject the applications, and each side rates the other after the
event ends. An administrator approves the organisations that register. The backend is a
FastAPI service over MongoDB:
- services for events, applications, reviews, organisations and statistics;
- the Pydantic models those services store;
- a helper that turns ObjectIds into text;
- date-range helpers;
- a WebSocket connection manager that pushes notifications to an organisation's open pages.

The React frontend has these parts:
- a session provider that decodes the stored JWT and probes the user's role;
- route guards;
- a toast bus;
- a fetch wrapper;
- a reconnecting WebSocket hook with the notification hook built on it;
- the organisation and volunteer pages that list, filter, decide on and rate.

This project models each of these core files as one Dafny module, in the form the file itself
takes:
- Code that updates state step by step becomes a class: the React hooks and pages, the toast
  bus, the connection manager and the store behind the backend services. A class's fields are
  the state its methods change. Each method ensures that its new state, read through
  `Snapshot()`, is a step function applied to the old state. The lemmas beside the class prove
  what the source promises about those step functions.
- Code made of expressions becomes datatypes, functions and lemmas: validators, message
  mappings, filters and sorts, date arithmetic and the models.

Everything the code asks of the outside world is a parameter of the model:
- the MongoDB collections are one `Database.StoreState` value;
- fresh ObjectIds, the clock (`now`), bcrypt's hash and JSON/date parsing are arguments;
- what a server call answers or throws is an argument too;
- the messages a socket sends are returned as a sequence.

## Model

| member | source | states |
|---|---|---|
| UserModels.ParseObjectId | backend/models/user_models.py:23 | a text is accepted as an ObjectId exactly when it is 24 hexadecimal digits, and the accepted id is its lower-case form |
| UserModels.ValidateObjectId | backend/models/user_models.py:19-25 | an ObjectId becomes its text, a valid ObjectId text passes unchanged, anything else fails with "Invalid ObjectId" (both directions of the failure case) |
| UserModels.ValidateRoundTrip | backend/models/user_models.py:19-25 | a validated id is valid ObjectId text, validating it again gives the same result, and an ObjectId's text parses back to that ObjectId |
| UserModels.ParseRole | backend/models/user_models.py:27-29 | a parsed role always prints back as the text it came from |
| UserModels.RoleRoundTrip | backend/models/user_models.py:27-29 | every role parses back from its text, and exactly "user" and "admin" are roles |
| UserModels.UserInWithoutSkills | backend/models/user_models.py:32-42 | a user registration built without skills has an empty skills list and keeps every given field |
| UserModels.NewUserDB | backend/models/user_models.py:62-67 | a stored user starts with role user, no update time and no profile image, keeping the registration data, id and creation time |
| UserModels.UpdateBoundsMatch | backend/models/user_models.py:75-84 | the empty user update is valid, and an update that sets every field is valid exactly when the same fields are a valid registration |
| OrganisationModels.ParseStatus | backend/models/organisation_models.py:11-14 | a parsed organisation status prints back as the text it came from |
| OrganisationModels.ParseType | backend/models/organisation_models.py:18-20 | a parsed organisation type prints back as the text it came from |
| OrganisationModels.EnumsRoundTrip | backend/models/organisation_models.py:11-20 | status and type parse back from their texts; exactly "pending", "approved", "rejected" are statuses and exactly "official", "informal" are types |
| OrganisationModels.OrganisationInDefaults | backend/models/organisation_models.py:29-46 | an organisation registration without the optional fields is of type official with no phone and no website, and keeps the given fields |
| OrganisationModels.NewOrganisationDB | backend/models/organisation_models.py:69-75 | a stored organisation starts with role organisation, status pending, no update time and no logo, keeping the data, id and creation time |
| OrganisationModels.UpdateBoundsMatch | backend/models/organisation_models.py:85-100 | the empty organisation update is valid, and a full update is valid exactly when the same fields are a valid registration (same length bounds and username pattern) |
| ApplicationModels.ParseStatus | backend/models/application_models.py:11-15 | a parsed application status prints back as the text it came from |
| ApplicationModels.StatusRoundTrip | backend/models/application_models.py:11-15 | every application status parses back from its text, and exactly the four status texts parse |
| ApplicationModels.DecisionStatus | backend/models/application_models.py:68-70 | an organiser's decision maps to the application status with the same text, never pending or cancelled |
| ApplicationModels.NewApplicationDB | backend/models/application_models.py:50-58 | a stored application starts pending with no update time, keeping the input, id, applicant id, applicant snapshot and creation time |
| ApplicationModels.StatusAfterUpdate | backend/models/application_models.py:72-74 | an update with a decision leaves the application accepted or rejected; an update without one keeps the old status |
| EventModels.ParseCategory | backend/models/event_models.py:11-21 | a parsed category prints back as the text it came from |
| EventModels.CategoryRoundTrip | backend/models/event_models.py:11-21 | every category parses back from its text; exactly the ten category texts parse |
| EventModels.EventInDefaults | backend/models/event_models.py:25-36 | an event input without the optional fields has no tags, no volunteer limit and no image, and keeps the given fields |
| EventModels.EndBeforeStartAccepted | backend/models/event_models.py:28-29 | the event input accepts an end date before the start date (no ordering rule between the two dates) |
| ReviewModels.ParseRating | backend/models/review_models.py:11-16 | a rating is accepted exactly when it lies in 1..5, and keeps its value |
| ReviewModels.ReviewWithoutComment | backend/models/review_models.py:23-25 | a review input with only a rating is valid and has no comment |
| Database.FindIndex | backend/repositories/events_repository.py:12-17 | the position of the first document matching a filter: none exactly when no document matches, otherwise a matching position with no match before it |
| Database.FindFirst | backend/repositories/applications_repository.py:17-21 | a `find_one`: nothing exactly when no document matches, otherwise a stored matching document that is the first match |
| Database.UpdateFirst | backend/repositories/events_repository.py:54-59 | an `update_one`: the collection keeps its length, is unchanged when nothing matches, and otherwise only the first match is replaced by its updated form |
| Database.DeleteFirst | backend/repositories/events_repository.py:62-64 | a `delete_one`: the collection is unchanged when nothing matches, otherwise exactly the first match is removed |
| Database.FindAfterUpdate | backend/repositories/events_repository.py:54-59 | after an `update_one` whose result still matches the filter, the same position is found first and `find_one` returns the updated document |
| ReviewService.EligibleEvent | backend/services/review_service.py:36-48 | the shared checks of both review kinds: success exactly when the event exists, has ended and the user's application on it is accepted; 404 for a missing event, 400 "Event još nije završen." for an event still running, 400 with the caller's message otherwise |
| ReviewService.CreateUserToOrgAsWritten | backend/services/review_service.py:28-71 | a volunteer's review of the organisation succeeds exactly when the event is eligible and the user has not yet reviewed it; the stored review carries the organisation id as the text the event lookup returned |
| ReviewService.CreateUserToOrg | backend/services/review_service.py:28-71 | as above, but the stored review carries the organisation's ObjectId; a failure leaves the store unchanged; a second review of the same event fails with 400 "Već ste ocenili organizaciju za ovaj događaj." |
| ReviewService.CreateOrgToUser | backend/services/review_service.py:124-169 | an organisation's review of a volunteer succeeds exactly when the event is eligible and this organisation has not yet reviewed this user for it; it appends one org_to_user review with the organisation's ObjectId; failures leave the store unchanged |
| ReviewService.ToPublicReview | backend/services/review_service.py:207-230 | the public form keeps rating and comment and names the event, the user (trimmed first and last name) and the organisation, with "Unknown event", "Unknown user", "Unknown organisation" when the lookup finds nothing |
| ReviewService.PublicReviews | backend/services/review_service.py:183 | every review is converted, in order, one public review per stored review |
| ReviewService.ReceivedByOrg | backend/services/review_service.py:174-183 | exactly the stored user_to_org reviews whose organisation id is the organisation's ObjectId |
| ReviewService.GivenByOrg | backend/services/review_service.py:186-196 | exactly the stored org_to_user reviews whose organisation id is the organisation's ObjectId |
| ReviewService.ReceivedByUser | backend/services/review_service.py:242-250 | exactly the stored org_to_user reviews about the user |
| ReviewService.RatingSum | backend/services/review_service.py:259 | the sum of n ratings lies between n and 5n |
| ReviewService.AverageOf | backend/services/review_service.py:262-264 | no average exactly when there are no reviews; otherwise the average is taken over all of them and lies between 1 and 5 |
| ReviewService.CreateUserToOrgReview | backend/services/review_service.py:28-71 | the store after the call and the returned result are those of the corrected user-to-organisation step |
| ReviewService.CreateOrgToUserReview | backend/services/review_service.py:124-169 | the store after the call and the returned result are those of the organisation-to-user step |
| ReviewServiceProperties.UserToOrgOnce | backend/services/review_service.py:50-52 | after a successful user-to-organisation review, the same user reviewing the same event again, at any later time, fails with 400 |
| ReviewServiceProperties.OrgToUserOnce | backend/services/review_service.py:145-151 | after a successful organisation-to-user review, the same organisation reviewing the same user for the same event again fails with 400 |
| ReviewServiceProperties.DirectionsIndependent | backend/services/review_service.py:50-52 | a user's review of an organisation does not count as that organisation's review of the user |
| ReviewServiceProperties.UserToOrgReviewInvisible | backend/services/review_service.py:58 | with the organisation id stored as text, the new review is not among the organisation's received reviews and leaves its average unchanged |
| ReviewServiceProperties.UserToOrgReviewCounted | backend/services/review_service.py:58 | with the ObjectId stored, the new review is appended to the organisation's received reviews and the organisation has an average |
| ReviewServiceProperties.AverageAbsentIff | backend/services/review_service.py:254-281 | the organisation's (user's) average is absent exactly when no user_to_org review names the organisation (no org_to_user review names the user) |
| ReviewServiceProperties.AnyOrganisationMayRate | backend/services/review_service.py:124-151 | the organisation-to-user review does not check that the reviewing organisation owns the event: any two organisations that have not yet reviewed the user get the same result |
| ApplicationService.OrganisationName | backend/services/application_service.py:140-141 | the organisation's name when it is stored, "Nepoznata organizacija" otherwise |
| ApplicationService.ApplyStep | backend/services/application_service.py:27-67 | the corrected apply (see Findings): 404 for an unknown event and 400 "Već ste se prijavili na ovaj događaj." when the user already has an application for the event, both leaving the store unchanged; success exactly otherwise, appending one pending application with the applicant snapshot and one notification to the event's organisation naming the event title |
| ApplicationService.ApplyAsWritten | backend/services/application_service.py:27-45 | apply as the code stands: the same 404 and 400 guards, and past them always a 500, because reading `current_user.first_name` raises on a `UserDB`; the store is never changed |
| ApplicationService.Updated | backend/services/application_service.py:165-168 | a status update applies only the fields that were given and stamps the update time, keeping the application's id, applicant, event and snapshot |
| ApplicationService.UpdateStatusStep | backend/services/application_service.py:152-169 | 404 "Prijava nije pronađena." for an unknown application, 404 "Događaj nije pronađen." when its event is missing, 403 "Nemate dozvolu da menjate ovu prijavu." when the event belongs to another organisation; success exactly otherwise, in which case only that application is updated; every failure leaves the store unchanged |
| ApplicationService.CancelStep | backend/services/application_service.py:174-192 | 404 for an unknown application, 403 for someone else's, 400 for an accepted or rejected one; otherwise the application becomes cancelled with the update time set, and nothing else changes |
| ApplicationService.ApplicationsOfUser | backend/repositories/applications_repository.py:40-49 | exactly the stored applications of the user |
| ApplicationService.LiveApplicationsOfEvent | backend/services/application_service.py:109-110 | exactly the stored applications for the event that are not cancelled |
| ApplicationService.EventsOfOrganisation | backend/repositories/events_repository.py:28-35 | exactly the stored events of the organisation |
| ApplicationService.TitleIn | backend/services/application_service.py:144 | the title of the listed event with that id, "Nepoznat događaj" when none is listed |
| ApplicationService.LiveApplicationsOfOrganisation | backend/services/application_service.py:133-134 | exactly the stored applications that are not cancelled and belong to an event of the organisation |
| ApplicationService.MyView | backend/services/application_service.py:87-95 | an application shown to its owner keeps all its fields and carries the event title and organiser name, both "unknown" when the event is gone |
| ApplicationService.Apply | backend/services/application_service.py:27-67 | the store after the call and the returned result are those of the apply step |
| ApplicationService.GetMyApplications | backend/services/application_service.py:72-97 | one view per application of the user, in stored order, each with its event title and organiser name |
| ApplicationService.GetEventApplications | backend/services/application_service.py:102-119 | 403 "Event ne pripada organizaciji" exactly when the event is unknown or belongs to another organisation; otherwise every live application of the event, in order, tagged with the event title and the organisation name |
| ApplicationService.NoEventsNoApplications | backend/services/application_service.py:126-128 | an organisation without events has no live applications |
| ApplicationService.TagWithTitles | backend/services/application_service.py:143-145 | every application is tagged, in order, with its event's title from the listing and the organisation name |
| ApplicationService.GetAllApplicationsForOrg | backend/services/application_service.py:124-147 | nothing for an organisation without events; otherwise every live application on its events, in order, tagged with its event title and the organisation name |
| ApplicationService.UpdateStatus | backend/services/application_service.py:152-169 | the store after the call and the returned result are those of the status-update step |
| ApplicationService.CancelApplication | backend/services/application_service.py:174-192 | the store after the call and the returned result are those of the cancel step |
| ApplicationServiceProperties.ApplyOnce | backend/services/application_service.py:36-38 | after a successful application, a second application of the same user to the same event fails with 400 |
| ApplicationServiceProperties.ApplyAsWrittenCrashes | backend/services/application_service.py:40-45 | apply as written never changes the store; it answers 500 on exactly the requests the corrected apply accepts, and on every other request it gives the corrected apply's 404 or 400 |
| ApplicationServiceProperties.StatusChangeKeepsApplicationOf | backend/services/application_service.py:168 | a status update never changes whose application it is nor its event, so the user still has an application for the event |
| ApplicationServiceProperties.NoReapplyAfterCancel | backend/services/application_service.py:36-38 | after applying and then cancelling, applying again to the same event still fails with 400: the cancelled application blocks re-application |
| ApplicationServiceProperties.CancelAgain | backend/services/application_service.py:183-191 | a cancelled application stays cancelled and may be cancelled again, since only accepted and rejected ones are refused |
| ApplicationServiceProperties.CancelledCanBeAccepted | backend/services/application_service.py:152-168 | the owning organisation can accept an application the volunteer has cancelled: the status update does not look at the old status |
| ApplicationServiceProperties.DecisionIsFinal | backend/services/application_service.py:165-168 | after a successful decision the application's status is the one decided, never pending or cancelled |
| ApplicationServiceProperties.OrgListingTitlesKnown | backend/services/application_service.py:130-144 | every application in an organisation's listing is tagged with the real title of one of its events, never the "unknown" text |
| StatisticsService.LatestIndex | backend/services/statistics_service.py:53 | the position max picks in a non-empty list: no creation time is greater than its own, and every earlier event was created strictly earlier |
| StatisticsService.LatestCreated | backend/services/statistics_service.py:53 | no last event exactly when there are no events; otherwise an event whose creation time is the greatest, and the first such event in order |
| StatisticsService.ApplicationsOnEvents | backend/services/statistics_service.py:41-42 | exactly the stored applications, cancelled ones included, whose event is one of the given events |
| StatisticsService.OrganisationStats | backend/services/statistics_service.py:13-17 | the statistics fail with "Organisation not found" exactly when no organisation has the given username |
| StatisticsService.NoEventsAllZero | backend/services/statistics_service.py:28-38 | an organisation without events gets zero for every count and average, and no last event |
| StatisticsService.CountsConsistent | backend/services/statistics_service.py:42-45 | accepted plus rejected-or-cancelled never exceeds all applications |
| StatisticsService.StatsShape | backend/services/statistics_service.py:47-60 | active events never exceed all events, the average is applications over events (zero without events), and the name reported is the username |
| StatisticsService.StatusAndActiveCounts | backend/services/statistics_service.py:44-51 | the accepted count is the number of accepted applications on the organisation's events, the rejected-or-cancelled count the number whose status is rejected or cancelled, and the active count the number of its events whose end date is not before now |
| StatisticsService.TotalsAndLastEvent | backend/services/statistics_service.py:23-57 | the event total is the number of the organisation's events, the application total the number of applications on them, and the last event exists exactly when there are events and is a most recently created one |
| EventService.FilterQuery | backend/services/event_service.py:38-58 | the query fails exactly when a given date is not ISO text, with `fromisoformat`'s message naming date_from when it fails and date_to otherwise; otherwise it holds category, location and tags exactly when each is given (non-empty), and a start-date range exactly when a bound is given, with a lower bound exactly when date_from is given and an upper bound exactly when date_to is given |
| EventService.BuildFilterQuery | backend/services/event_service.py:38-56 | the query built key by key is the query described above |
| EventService.FilterEvents | backend/repositories/events_repository.py:67-72 | exactly the stored events that match the query: category equal, location containing the text regardless of case, some tag shared, start date within the bounds |
| EventService.GetEventById | backend/services/event_service.py:23-27 | "Event not found" exactly when no stored event has the id; otherwise a stored event with that id |
| EventService.Updated | backend/services/event_service.py:62-63 | an update replaces exactly the fields that were given, stamps the update time, and keeps id, organisation and creation time |
| EventService.UpdateEventStep | backend/services/event_service.py:61-67 | success exactly when the event exists and the update changes it (the store reports a modification); otherwise "Event not found or not updated" with the store unchanged; on success only that event is updated |
| EventService.DeleteEventStep | backend/services/event_service.py:70-74 | success exactly when an event has the id, removing one event and keeping every other event and every other collection; otherwise "Event not found or not deleted" with the store unchanged |
| EventService.UpdateEvent | backend/services/event_service.py:61-67 | the store after the call and the returned result are those of the update step |
| EventService.DeleteEvent | backend/services/event_service.py:70-74 | the store after the call and the returned result are those of the delete step |
| EventServiceProperties.NoCriteriaReturnsAll | backend/services/event_service.py:38-58 | with no criterion given the query is empty and every stored event is returned, in order |
| EventServiceProperties.UpdateAtNewInstant | backend/services/event_service.py:61-67 | an update at an instant other than the event's last update time always succeeds, and the stored event becomes the updated one |
| EventServiceProperties.EmptyUpdateAtSameInstantFails | backend/services/event_service.py:62-66 | an update with no fields, at the very instant of the last update, changes nothing and so raises "Event not found or not updated" although the event exists |
| OrganisationService.RegisterStep | backend/services/organisation_service.py:26-49 | 400 "Organizacija sa ovim emailom već postoji." with the store unchanged exactly when an organisation already has the email; otherwise one pending organisation is appended, holding the hashed password, and its fresh id is returned |
| OrganisationService.SetStatusStep | backend/services/organisation_service.py:10-20 | success exactly when the organisation exists and its status differs from the new one (the store reports a modification), and then only its status changes; otherwise 404 "Organizacija nije pronađena" with the store unchanged |
| OrganisationService.ListPending | backend/repositories/organisations_repository.py:6-12 | exactly the stored organisations whose status is pending |
| OrganisationService.GetOrganisationById | backend/services/organisation_service.py:55-59 | "Organizacija nije pronađena" exactly when no organisation has the id; otherwise a stored organisation with that id |
| OrganisationService.GetOrganisationByUsername | backend/services/organisation_service.py:61-65 | the username error exactly when no organisation has the username; otherwise a stored organisation with that username |
| OrganisationService.GetCurrentOrganisation | backend/services/organisation_service.py:67-71 | "Organizacija nije pronađena" exactly when no organisation has the email; otherwise a stored organisation with that email |
| OrganisationService.RegisterOrganisation | backend/services/organisation_service.py:26-49 | the store after the call and the returned result are those of the registration step |
| OrganisationService.ApproveOrganisation | backend/services/organisation_service.py:10-14 | the store after the call and the result are those of setting the status to approved |
| OrganisationService.RejectOrganisation | backend/services/organisation_service.py:16-20 | the store after the call and the result are those of setting the status to rejected |
| OrganisationService.SetStatus | backend/repositories/organisations_repository.py:15-20 | the store after the call and the result are those of the status step |
| OrganisationServiceProperties.EmailRegistersOnce | backend/services/organisation_service.py:28-30 | once an email is registered, a second registration with the same email fails with 400 and changes nothing |
| OrganisationServiceProperties.RegisteredIsPending | backend/services/organisation_service.py:36-43 | a newly registered organisation can be found by its id, is pending, has no update time, and stores the hashed password and the given email |
| OrganisationServiceProperties.ApproveTwiceNotFound | backend/services/organisation_service.py:10-13 | after an approval the organisation is approved, and approving it again reports 404 "not found" because nothing is modified |
| OrganisationServiceProperties.ApprovedCanBeRejected | backend/services/organisation_service.py:10-20 | an approved organisation can afterwards be rejected, and is then stored as rejected |
| MongoCleaner.Keys | backend/mongo_cleaner.py:12 | the keys of a document's entries, in order |
| MongoCleaner.CleanDoc | backend/mongo_cleaner.py:3-19 | the cleaned document contains no ObjectId anywhere; an ObjectId becomes its text; a list keeps its length and order, each element cleaned in place; a dictionary keeps its keys in order; any other value is returned unchanged |
| MongoCleaner.CleanEntry | backend/mongo_cleaner.py:12-16 | a cleaned entry keeps its key and holds no ObjectId |
| MongoCleaner.Clean | backend/mongo_cleaner.py:3-19 | the document built by the loops over lists and dictionaries is the cleaned document |
| MongoCleaner.CleanKeepsClean | backend/mongo_cleaner.py:3-19 | a document without ObjectIds is returned unchanged |
| MongoCleaner.CleanIdempotent | backend/mongo_cleaner.py:3-19 | cleaning twice gives the same as cleaning once |
| MongoCleaner.DictBranchIsMap | backend/mongo_cleaner.py:10-17 | a dictionary is cleaned entry by entry: each key keeps its position, and its value is cleaned (an ObjectId value becomes its text either way) |
| WsManager.IndexOf | backend/ws_manager.py:20 | the first position of a connection in a list that holds it |
| WsManager.RemoveFirst | backend/ws_manager.py:20 | `list.remove`: fails with "list.remove(x): x not in list" exactly when the connection is absent; otherwise removes exactly its first occurrence |
| WsManager.ConnectStep | backend/ws_manager.py:10-16 | a connection is appended to its organisation's list, created empty when missing; no other organisation's list changes |
| WsManager.DisconnectStep | backend/ws_manager.py:18-20 | nothing happens for an unknown organisation; for a known one, a connection not in its list raises and changes nothing, otherwise exactly its first occurrence is removed and the other connections keep their order; the set of organisations and every other list stay the same |
| WsManager.Sends | backend/ws_manager.py:22-25 | the message goes to every connection of the organisation, once each and in order, and to nobody when the organisation is unknown |
| WsManager.ConnectionManager.constructor | backend/ws_manager.py:6-8 | a new manager has no connections |
| WsManager.ConnectionManager.Connect | backend/ws_manager.py:10-16 | the connections after the call are those of the connect step |
| WsManager.ConnectionManager.Disconnect | backend/ws_manager.py:18-20 | the connections after the call and the raised error are those of the disconnect step |
| WsManager.ConnectionManager.SendToOrg | backend/ws_manager.py:22-25 | the loop sends exactly the messages described above |
| WsManagerProperties.ConnectThenDisconnect | backend/ws_manager.py:10-20 | connecting a new connection and then disconnecting it succeeds and leaves every list as it was, except that an unknown organisation is left with an empty list |
| WsManagerProperties.DisconnectTwiceRaises | backend/ws_manager.py:18-20 | disconnecting a connection held once succeeds, and disconnecting it a second time raises |
| WsManagerProperties.SendReachesNewSocket | backend/ws_manager.py:10-25 | after a connect, a message to the organisation reaches the earlier connections and then the new one |
| WsManagerProperties.UnknownOrganisationGetsNothing | backend/ws_manager.py:23 | a message to an organisation with no entry is sent nowhere |
| DateHelpers.DaysInMonth | backend/date_helpers.py:3-10 | every month has between 28 and 31 days |
| DateHelpers.MonthRange | backend/date_helpers.py:3-10 | in December 9999 building the next January raises "year 10000 is out of range", and only then; otherwise the range starts at midnight on the first of the current month and ends at midnight on the first of the next month (January of the next year after December), both are valid dates, and now lies in [start, end) |
| DateHelpers.Weekday | backend/date_helpers.py:14 | the weekday is one of seven values, Monday being 0 |
| DateHelpers.WeekRange | backend/date_helpers.py:12-16 | the end seven days after the Monday overflows ("date value out of range") exactly when it passes 9999-12-31; otherwise the week starts on the Monday of the current week at the current time of day, ends seven days later, and contains now |
| DateHelpers.LastDayIsLastDate | backend/date_helpers.py:15 | 9999-12-31, the last date `datetime` accepts, is a Friday with the day number the overflow test uses, and its week's Monday is 9999-12-27 |
| DateHelpers.WeekRangeOverflow | backend/date_helpers.py:14-15 | the week range fails exactly for a now on or after Monday 9999-12-27 |
| DateHelpers.Epoch | backend/date_helpers.py:14 | day 0 is 1970-01-01, a Thursday |
| DateHelpers.WeekdayNext | backend/date_helpers.py:14 | the next day's weekday is the following weekday, Sunday wrapping to Monday |
| DateHelpers.NextDay | backend/date_helpers.py:14-15 | within a month the next calendar date is the next day number and has the next weekday |
| DateHelpers.NextMonth | backend/date_helpers.py:5-9 | the first of each next month, as the month range ends it, is the day after the last day of the month |
| DateHelpers.NextYear | backend/date_helpers.py:6-7 | 1 January of the next year, where the December range ends, is the day after 31 December |
| DateHelpers.MarchFollowsFebruary | backend/date_helpers.py:14-15 | 1 March follows the last day of February, 28 or 29 by the Gregorian leap rule, so day numbers and weekdays run on across it |
| WebSocket.Pow2 | dipl-frontend/src/hooks/useWebSocket.ts:90 | a power of two is at least 1 |
| WebSocket.BackoffDelay | dipl-frontend/src/hooks/useWebSocket.ts:90 | the reconnect delay is 1000·2^n milliseconds, capped at 30000 |
| WebSocket.ConnectUrl | dipl-frontend/src/hooks/useWebSocket.ts:32-36 | the URL is the base and endpoint, with a token query exactly when a non-empty token is stored |
| WebSocket.StepKeepsValid | dipl-frontend/src/hooks/useWebSocket.ts:88-89 | one event of any kind keeps the attempt counter at most five and the current socket one that exists |
| WebSocket.StepsKeepValid | dipl-frontend/src/hooks/useWebSocket.ts:88-89 | every event keeps the attempt counter at most five and the current socket one that exists |
| WebSocket.Initial | dipl-frontend/src/hooks/useWebSocket.ts:21-25 | a mounted hook starts with no socket, no timer, zero attempts and not connected |
| WebSocket.WebSocketHook.constructor | dipl-frontend/src/hooks/useWebSocket.ts:128-131 | mounting the hook runs its effect: the state is that of a connect from the initial state |
| WebSocket.WebSocketHook.ConnectAs | dipl-frontend/src/hooks/useWebSocket.ts:28-106 | the refs and state after a connect closure that captured the given enabled value are those of the connect step: nothing when disabled, the creation error when the constructor throws, otherwise a new connecting socket becomes current |
| WebSocket.WebSocketHook.Connect | dipl-frontend/src/hooks/useWebSocket.ts:28-106 | the same for the closure of the current enabled value |
| WebSocket.WebSocketHook.OnOpen | dipl-frontend/src/hooks/useWebSocket.ts:42-52 | a connecting socket opens, and the hook reports connected, clears the error and resets the counter |
| WebSocket.WebSocketHook.OnMessage | dipl-frontend/src/hooks/useWebSocket.ts:54-64 | a frame that parses, on an open socket, is handed to onMessage; anything else changes nothing |
| WebSocket.WebSocketHook.OnError | dipl-frontend/src/hooks/useWebSocket.ts:66-70 | an error on a live socket sets the connection error and reports not connected |
| WebSocket.WebSocketHook.OnClose | dipl-frontend/src/hooks/useWebSocket.ts:72-99 | the state after a close event is that of the close step: codes 1000 and 1008 only report disconnected; otherwise, while the handler's captured enabled is true and fewer than five attempts were made, the counter grows and a timer is set; at five attempts the terminal error is set |
| WebSocket.WebSocketHook.OnClosedAfterDisconnect | dipl-frontend/src/hooks/useWebSocket.ts:113-115 | the close event of a socket closed by disconnect arrives with code 1005 and runs the same close handler |
| WebSocket.WebSocketHook.FireTimer | dipl-frontend/src/hooks/useWebSocket.ts:92-94 | the pending timer fires and runs the connect closure that scheduled it |
| WebSocket.WebSocketHook.FireStrayTimer | dipl-frontend/src/hooks/useWebSocket.ts:92 | a timer whose handle was overwritten still fires and runs its connect closure |
| WebSocket.WebSocketHook.Disconnect | dipl-frontend/src/hooks/useWebSocket.ts:108-118 | the tracked timer is cleared, the current socket is asked to close and forgotten, and the hook reports not connected |
| WebSocket.WebSocketHook.SendMessage | dipl-frontend/src/hooks/useWebSocket.ts:120-126 | a message is sent only when the current socket is open, and dropped otherwise |
| WebSocket.WebSocketHook.SetEnabled | dipl-frontend/src/hooks/useWebSocket.ts:128-136 | a change of enabled runs the cleanup (disconnect) and then, when enabled, a connect |
| WebSocketProperties.ConnectGate | dipl-frontend/src/hooks/useWebSocket.ts:29-40 | a disabled connect changes nothing; an enabled one adds exactly one connecting socket, which becomes current and carries the token query exactly when a token is stored |
| WebSocketProperties.OpenResets | dipl-frontend/src/hooks/useWebSocket.ts:42-46 | opening reports connected, clears the error, resets the counter and leaves the timer alone |
| WebSocketProperties.BackoffValues | dipl-frontend/src/hooks/useWebSocket.ts:89-90 | since the counter is incremented before the delay is computed, the delays are 2000, 4000, 8000, 16000, then 30000 (the cap) |
| WebSocketProperties.TerminalCloseSchedulesNothing | dipl-frontend/src/hooks/useWebSocket.ts:81-85 | a close with code 1000 or 1008 schedules nothing and changes neither the counter nor the error |
| WebSocketProperties.TerminalClosesRepeat | dipl-frontend/src/hooks/useWebSocket.ts:81-85 | however many terminal closes arrive, the counter and the timers stay as they were |
| WebSocketProperties.NonTerminalCloseReconnects | dipl-frontend/src/hooks/useWebSocket.ts:87-94 | any other close, below the limit and with the handler's enabled true, increments the counter and sets a timer with the delay for the new count, and forgets the socket |
| WebSocketProperties.CloseAtLimitGivesUp | dipl-frontend/src/hooks/useWebSocket.ts:95-98 | at five attempts a close schedules nothing and sets "Failed to connect to WebSocket after multiple attempts" |
| WebSocketProperties.ErrorDoesNotReconnect | dipl-frontend/src/hooks/useWebSocket.ts:66-70 | an error reports disconnected with the error, but neither schedules a reconnect nor forgets the socket |
| WebSocketProperties.FrameHandling | dipl-frontend/src/hooks/useWebSocket.ts:54-64 | an unparseable frame changes nothing; a parsed frame on an open socket is delivered exactly once, after the earlier ones |
| WebSocketProperties.SendOnlyWhenOpen | dipl-frontend/src/hooks/useWebSocket.ts:120-126 | a message is transmitted exactly when the current socket is open; otherwise nothing is transmitted |
| WebSocketProperties.DisconnectClears | dipl-frontend/src/hooks/useWebSocket.ts:108-118 | disconnect clears the timer and the current socket, reports not connected, keeps the counter, and asks the socket to close |
| WebSocketProperties.RunKeepsValid | dipl-frontend/src/hooks/useWebSocket.ts:26 | whatever events happen, the attempt counter never exceeds five |
| WebSocketProperties.StepDelivers | dipl-frontend/src/hooks/useWebSocket.ts:54-64 | only an inbound frame can deliver, a parsed one adds at most its own message at the end, and an unparseable one delivers nothing |
| WebSocketProperties.RunExtendsDelivered | dipl-frontend/src/hooks/useWebSocket.ts:54-64 | delivered messages are never lost or reordered, and without inbound frames nothing new is delivered |
| WebSocketProperties.OneFailure | dipl-frontend/src/hooks/useWebSocket.ts:87-94 | one failed attempt below the limit waits the delay for the incremented count, and the timer leaves a new socket retrying |
| WebSocketProperties.FailureAtLimit | dipl-frontend/src/hooks/useWebSocket.ts:94-97 | a failure at the attempt limit schedules nothing and ends with the terminal error and no timer |
| WebSocketProperties.ScheduledDelaysShape | dipl-frontend/src/hooks/useWebSocket.ts:87-89 | the delays scheduled from a attempts number one per attempt left, the j-th being the backoff of attempt a+j+1 |
| WebSocketProperties.FailureRunDelays | dipl-frontend/src/hooks/useWebSocket.ts:87-98 | consecutive failures from a attempts schedule exactly the backoff delays for a+1, a+2, ... up to the fifth attempt |
| WebSocketProperties.FailureRunGivesUp | dipl-frontend/src/hooks/useWebSocket.ts:94-97 | when the failures outnumber the attempts left, the run ends with the terminal error and no timer pending |
| WebSocketProperties.FreshFailureSchedule | dipl-frontend/src/hooks/useWebSocket.ts:87-98 | from a fresh connection, six failures in a row wait 2000, 4000, 8000, 16000 and 30000 ms and then give up |
| WebSocketProperties.DisableThenReconnects | dipl-frontend/src/hooks/useWebSocket.ts:88 | turning enabled off closes the socket without a code; its close handler still sees the enabled value it captured, schedules a reconnect, and the timer opens a new socket although the hook is disabled |
| Notifications.StoredCount | dipl-frontend/src/hooks/useNotifications.ts:19 | the stored unread count is the body's count when present, 0 otherwise |
| Notifications.StatusLabel | dipl-frontend/src/hooks/useNotifications.ts:65-66 | "accepted" is shown as "prihvaćena", "rejected" as "odbijena", any other status as itself |
| Notifications.EventLabel | dipl-frontend/src/hooks/useNotifications.ts:53 | the event named in a toast is the event title when non-empty, else the title when non-empty, else "Nepoznat događaj"; never empty |
| Notifications.NotificationsHook.constructor | dipl-frontend/src/hooks/useNotifications.ts:10-14 | mounting starts from zero, nothing pending and no flag, then runs the polling effect once |
| Notifications.NotificationsHook.LoadUnreadCount | dipl-frontend/src/hooks/useNotifications.ts:16-23 | one more unread-count request is issued and nothing else changes |
| Notifications.NotificationsHook.LoadPendingApplications | dipl-frontend/src/hooks/useNotifications.ts:25-40 | one more pending-applications request is issued and nothing else changes |
| Notifications.NotificationsHook.HandleWebSocketMessage | dipl-frontend/src/hooks/useNotifications.ts:42-76 | the state after a message is that of the message step: new applications raise the flag, refresh both values and toast; status changes refresh both and toast the status; notifications refresh the count and toast the text; other types change nothing |
| Notifications.NotificationsHook.OnCountLoaded | dipl-frontend/src/hooks/useNotifications.ts:17-22 | a successful answer stores its count (0 when absent); a failure keeps the old count |
| Notifications.NotificationsHook.OnPendingLoaded | dipl-frontend/src/hooks/useNotifications.ts:26-39 | a successful answer replaces the list with its pending applications; a failure empties it |
| Notifications.NotificationsHook.RunEffect | dipl-frontend/src/hooks/useNotifications.ts:85-100 | the effect clears the old interval, and for an authenticated organisation loads both values and starts a new interval |
| Notifications.NotificationsHook.PollTick | dipl-frontend/src/hooks/useNotifications.ts:91-96 | an interval tick refreshes both values only while the interval exists and the socket is down |
| Notifications.NotificationsHook.SetHasNewApplication | dipl-frontend/src/hooks/useNotifications.ts:106 | the exported setter changes the flag and nothing else |
| NotificationsProperties.NewApplicationRefreshesBoth | dipl-frontend/src/hooks/useNotifications.ts:45-49 | a new-application message raises the flag and issues exactly one request for each value, leaving the stored values and the interval alone |
| NotificationsProperties.StatusChangeRefreshesBoth | dipl-frontend/src/hooks/useNotifications.ts:59-68 | a status-change message issues one request for each value, keeps the flag, and toasts the status in words only when data is present |
| NotificationsProperties.OtherMessages | dipl-frontend/src/hooks/useNotifications.ts:69-75 | a general notification refreshes only the count and keeps the flag; a message of any other type changes nothing |
| NotificationsProperties.PendingIsReplaced | dipl-frontend/src/hooks/useNotifications.ts:31-38 | after an answer the pending list depends only on that answer: exactly the fetched applications that are pending, or empty after a failure |
| NotificationsProperties.CountFailureKeeps | dipl-frontend/src/hooks/useNotifications.ts:20-22 | a failed count request changes nothing |
| NotificationsProperties.UnreadCountStaysZero | dipl-frontend/src/hooks/useNotifications.ts:19 | when every count answer has the server's shape (no count member), the displayed unread count stays 0 whatever happens |
| NotificationsProperties.PollGate | dipl-frontend/src/hooks/useNotifications.ts:85-96 | a tick refreshes both values exactly when the interval exists and the socket is down, and otherwise changes nothing; the interval exists exactly for an authenticated organisation |
| NotificationsProperties.NoPollingWhenUnsubscribed | dipl-frontend/src/hooks/useNotifications.ts:85-86 | after the effect runs for anyone but an authenticated organisation, any number of ticks changes nothing |
| Auth.Base64UrlToBase64 | dipl-frontend/src/auth/AuthContext.tsx:29 | each '-' becomes '+', each '_' becomes '/', every other character is kept, and no '-' or '_' remains |
| Auth.PayloadSegment | dipl-frontend/src/auth/AuthContext.tsx:28 | a token without '.' has no payload segment; a segment never contains '.' |
| Auth.DecodeJwt | dipl-frontend/src/auth/AuthContext.tsx:26-40 | a token without '.' decodes to null; decoded claims are those parsed from the base64 form of the payload segment |
| Auth.AuthProvider.constructor | dipl-frontend/src/auth/AuthContext.tsx:72-76 | the first render is not authenticated, has no role, user or organisation, and is loading, holding the stored token |
| Auth.AuthProvider.Logout | dipl-frontend/src/auth/AuthContext.tsx:138-144 | the state after logout is that of the logout step: the token, the authentication, the role and both profiles are cleared |
| Auth.AuthProvider.InitializeAuth | dipl-frontend/src/auth/AuthContext.tsx:87-114 | the state after initialisation is that of the init step: the detected role is set and authenticated, the matching profile is loaded (a failed load of a user's or organisation's profile signs out), and loading ends |
| Auth.AuthProvider.Mount | dipl-frontend/src/auth/AuthContext.tsx:78-85 | the mount effect initialises from a stored token, or only stops loading |
| Auth.AuthProvider.Login | dipl-frontend/src/auth/AuthContext.tsx:116-126 | a successful login stores the new token and initialises from it; a failed login changes nothing |
| AuthProperties.DetectRolePrecedence | dipl-frontend/src/auth/AuthContext.tsx:43-69 | an admin claim gives admin with no request; otherwise a working user profile gives user; organisation exactly when only the organisation profile works; null exactly when no probe works and no subject or username claim exists; the organisation probe is made exactly when the admin claim and the user probe both fail |
| AuthProperties.UndottedTokenHasNoClaims | dipl-frontend/src/auth/AuthContext.tsx:26-69 | a token without '.' yields no claims, so the role is decided by the probes alone |
| AuthProperties.LogoutResets | dipl-frontend/src/auth/AuthContext.tsx:138-144 | logout leaves the provider signed out and does not touch loading |
| AuthProperties.InitOutcome | dipl-frontend/src/auth/AuthContext.tsx:87-114 | initialisation always ends loading; a failed load of the detected user's or organisation's profile signs out; otherwise the provider is authenticated with the detected role and keeps the token, even when the role is null |
| AuthProperties.InitLoadsMatchingProfile | dipl-frontend/src/auth/AuthContext.tsx:93-107 | only the profile matching the role is loaded, and an admin without a user profile stays authenticated |
| AuthProperties.MountWithoutToken | dipl-frontend/src/auth/AuthContext.tsx:80-84 | without a stored token start-up only stops loading |
| AuthProperties.LoginIsColdStart | dipl-frontend/src/auth/AuthContext.tsx:116-126 | a login behaves as a start-up with the new token stored |
| AuthProperties.LoadingNeverReturns | dipl-frontend/src/auth/AuthContext.tsx:76-113 | once loading is over, no start-up, login or logout sets it again |
| AuthProperties.SettledAfterMount | dipl-frontend/src/auth/AuthContext.tsx:78-85 | after the mount effect the provider stays settled whatever happens next |
| LoginUser.DashboardFor | dipl-frontend/src/auth/LoginUser.tsx:36-42 | the admin dashboard exactly for admin, the organisation dashboard exactly for organisation, the volunteer dashboard for every other role including null |
| LoginUser.SubmitOutcome | dipl-frontend/src/auth/LoginUser.tsx:14-60 | the login ends in an error exactly when `loginUser` fails; a navigation is delayed exactly when a token is stored but cannot be decoded |
| LoginUser.RedirectRole | dipl-frontend/src/auth/LoginUser.tsx:22-54 | after a successful login with a stored token, the redirect uses the token's role claim when present, else the page's role; a token that cannot be decoded falls back to the page's role after the delay |
| LoginUser.NoTokenAndFailure | dipl-frontend/src/auth/LoginUser.tsx:55-59 | without a stored token the volunteer dashboard is chosen at once; a failed login shows its message, or "Login failed", and navigates nowhere |
| Access.Guard | dipl-frontend/src/components/ProtectedRoute.tsx:12-46 | the loading screen exactly while loading; a redirect to the login page exactly when settled and not authenticated; the children exactly for an admin or the required role; "Access Denied" exactly for any other authenticated role, null included |
| Access.AdminEverywhereNullNowhere | dipl-frontend/src/components/ProtectedRoute.tsx:27-43 | an admin passes every route guard, and an authenticated session with a null role passes none |
| Access.GateHasNoAdminException | dipl-frontend/src/components/RoleGate.tsx:11-19 | unlike the route guard, the in-page gate shows nothing to an admin unless admin is listed |
| Access.GateCases | dipl-frontend/src/components/RoleGate.tsx:14-18 | a null role sees nothing gated; a set role sees gated content exactly when it is listed |
| Toasts.ToastId | dipl-frontend/src/components/Toast.tsx:77 | every toast id is "toast-" followed by the counter |
| Toasts.ToastIdInjective | dipl-frontend/src/components/Toast.tsx:77 | different counter values give different ids, so an id is never reused |
| Toasts.Deliver | dipl-frontend/src/components/Toast.tsx:81 | delivering to the listeners keeps the set of toast lists |
| Toasts.DeliverExactlyOnce | dipl-frontend/src/components/Toast.tsx:81 | every registered listener's list gains the toast exactly once, at its end; every other list is untouched |
| Toasts.WithoutId | dipl-frontend/src/components/Toast.tsx:101-103 | removal keeps exactly the toasts with another id and never lengthens the list |
| Toasts.WithoutIdKeepsOrder | dipl-frontend/src/components/Toast.tsx:102 | removal keeps the remaining toasts in their order (it distributes over concatenation) |
| Toasts.IndexOf | dipl-frontend/src/components/Toast.tsx:94 | the first position of the listener, or -1 exactly when it is not registered |
| Toasts.ToastBus.constructor | dipl-frontend/src/components/Toast.tsx:72-73 | the counter starts at 0 with no listeners |
| Toasts.ToastBus.Show | dipl-frontend/src/components/Toast.tsx:75-82 | the toast gets the id of the current counter and the type given (info by default), the counter grows by one, and every registered list gains the toast |
| Toasts.ToastBus.Subscribe | dipl-frontend/src/components/Toast.tsx:84-91 | a mounting instance starts with an empty list and its listener is appended |
| Toasts.ToastBus.Unsubscribe | dipl-frontend/src/components/Toast.tsx:93-98 | the cleanup splices out the instance's listener when registered and otherwise changes nothing; afterwards the listener is not registered |
| Toasts.ToastBus.RemoveToast | dipl-frontend/src/components/Toast.tsx:101-103 | only the instance's own list changes, losing the toasts with that id |
| ApiClient.RequestUrl | dipl-frontend/src/api/client.ts:4 | the request goes to "/api" plus the endpoint in development and to "http://localhost:8000" plus the endpoint otherwise |
| ApiClient.SafeJsonParse | dipl-frontend/src/api/client.ts:12-22 | an empty body or one that is not JSON reads as the empty object; any other body is its parsed value |
| ApiClient.ErrorMessage | dipl-frontend/src/api/client.ts:53-66 | the error message is the body's message, else a string detail, else the first validation error's msg, else "HTTP <status>: <status text>" |
| ApiClient.Request | dipl-frontend/src/api/client.ts:44-83 | a fetch that fails with "Failed to fetch" becomes the network error with status 0; any other thrown error passes unchanged; a non-ok answer throws an error with its status, the body's detail and the message chosen by the error-message chain from the body read tolerantly; an ok answer returns its body read tolerantly |
| ApiClient.BuildHeaders | dipl-frontend/src/api/client.ts:28-42 | an Authorization header exists exactly when a token is stored or the caller sent one, and a stored token gives "Bearer <token>"; Content-Type exists exactly for non-form bodies, the caller's value overriding JSON; the caller's other headers are kept and nothing else is added |
| ApiTypes.WithStatus | dipl-frontend/src/hooks/useNotifications.ts:31 | exactly the applications with the given status, never more than the input |
| RegisterOrg.ValidateUsername | dipl-frontend/src/auth/RegisterOrg.tsx:38-62 | an empty name is not flagged; otherwise the first failing rule wins (uppercase letters, then characters outside a-z, 0-9 and _, then fewer than 3, then more than 30 characters), and no message exactly when the name is empty or 3 to 30 allowed characters |
| RegisterOrg.AcceptedMatchesServerPattern | dipl-frontend/src/auth/RegisterOrg.tsx:47-57 | every non-empty name the form accepts matches the server's username pattern, but "org-1", which the server accepts, is refused by the form for its '-' |
| RegisterOrg.FindByLoc | dipl-frontend/src/auth/RegisterOrg.tsx:106-108 | the first validation error whose loc names the key, or none exactly when no loc names it |
| RegisterOrg.TextDetailMessage | dipl-frontend/src/auth/RegisterOrg.tsx:85-102 | a string detail mentioning the username becomes the duplicate, uppercase or invalid message by the first matching keyword group; any other detail is shown as sent |
| RegisterOrg.ParseError | dipl-frontend/src/auth/RegisterOrg.tsx:83-127 | string details go through the keyword mapping; for a validation list with an error naming the username, its msg becomes the duplicate message when it mentions a taken name, else the uppercase message when it mentions capitals, else the msg itself or the short invalid message when empty (a missing msg throws); a list without such an error gives the first error's msg or the validation fallback; otherwise the error message or the registration fallback |
| RegisterOrg.ChangeStep | dipl-frontend/src/auth/RegisterOrg.tsx:64-81 | the field takes its value; a typed username is validated at once and a refusal clears the general error; other fields leave both errors as they were |
| RegisterOrg.RegisterForm.constructor | dipl-frontend/src/auth/RegisterOrg.tsx:23-34 | the form starts with every field empty except the official organisation type, and with no errors, requests or redirect |
| RegisterOrg.RegisterForm.HandleChange | dipl-frontend/src/auth/RegisterOrg.tsx:64-81 | the new form state is the change step applied to the old one |
| RegisterOrg.RegisterForm.HandleSubmit | dipl-frontend/src/auth/RegisterOrg.tsx:129-159 | the new form state is the submit step applied to the old one and the registration outcome |
| RegisterOrgProperties.RejectedUsernameBlocksSubmit | dipl-frontend/src/auth/RegisterOrg.tsx:135-141 | a refused username makes no request whatever the server would answer, and shows the refusal in both error slots |
| RegisterOrgProperties.AcceptedUsernameSubmits | dipl-frontend/src/auth/RegisterOrg.tsx:128-158 | an accepted username makes exactly one request, clears loading, and redirects only on success; a failed request shows the parsed message as the error, and also as the username error exactly when it contains "Korisničko ime"; when parsing throws, the error stays cleared and the username error is kept |
| RegisterOrgProperties.DuplicateDetailMessage | dipl-frontend/src/auth/RegisterOrg.tsx:89-91 | the server's "username already exists" ends in the fixed duplicate message in both error slots |
| RegisterOrgProperties.DuplicateTextMessage | dipl-frontend/src/auth/RegisterOrg.tsx:87-91 | the detail "username already exists" maps to the fixed duplicate message |
| CreateEvent.HourText | dipl-frontend/src/pages/organisation/CreateEvent.tsx:52 | the hour group padded to two digits |
| CreateEvent.MinuteText | dipl-frontend/src/pages/organisation/CreateEvent.tsx:53 | the minute group, two digits |
| CreateEvent.NormaliseClock | dipl-frontend/src/pages/organisation/CreateEvent.tsx:50-61 | a valid H:MM or HH:MM reading becomes a five-character HH:MM with the same hour and minute; an HH:MM reading is unchanged; anything else, an out-of-range hour or minute included, is returned as is |
| CreateEvent.FormatTime | dipl-frontend/src/pages/organisation/CreateEvent.tsx:45-62 | an empty time stays empty; any other is trimmed and then normalised as a clock reading |
| CreateEvent.FormatTimeIdempotent | dipl-frontend/src/pages/organisation/CreateEvent.tsx:45-62 | formatting an already formatted time changes nothing |
| CreateEvent.DoubleFormatting | dipl-frontend/src/pages/organisation/CreateEvent.tsx:65-74 | the second formatting that combineDateTime applies to updateDateTime's formatted time changes nothing, and a combined value is empty exactly when the date or the time is |
| CreateEvent.BlankTimeDropped | dipl-frontend/src/pages/organisation/CreateEvent.tsx:72-74 | a time of only white space yields no combined date-time, whereas combining the raw time would give "<date>T" |
| CreateEvent.RemoveAt | dipl-frontend/src/pages/organisation/CreateEvent.tsx:112 | with a valid index, the list loses exactly that element and keeps the others in order; any other index leaves it unchanged |
| CreateEvent.FileRejection | dipl-frontend/src/pages/organisation/CreateEvent.tsx:116-128 | a file is accepted exactly when its type starts with "image/" and it is at most 5 MB; a non-image gets the choose-an-image toast and a larger image the size toast |
| CreateEvent.EventForm.constructor | dipl-frontend/src/pages/organisation/CreateEvent.tsx:22-42 | the form starts with no tags, empty date, time and tag inputs, and no file or image |
| CreateEvent.EventForm.SetTagInput | dipl-frontend/src/pages/organisation/CreateEvent.tsx:38 | only the tag input changes |
| CreateEvent.EventForm.AddTag | dipl-frontend/src/pages/organisation/CreateEvent.tsx:99-107 | the new form state is the add-tag step applied to the old one |
| CreateEvent.EventForm.RemoveTag | dipl-frontend/src/pages/organisation/CreateEvent.tsx:109-114 | the new form state is the old one with the tag at the index removed |
| CreateEvent.EventForm.UpdateDateTime | dipl-frontend/src/pages/organisation/CreateEvent.tsx:72-84 | the new form state is the date-time step: the typed date and time are kept for display and the combined value is stored for the start or the end |
| CreateEvent.EventForm.HandleFileChange | dipl-frontend/src/pages/organisation/CreateEvent.tsx:116-139 | the new form state is the file step applied to the old one |
| CreateEventProperties.AddTagAppendsTrimmed | dipl-frontend/src/pages/organisation/CreateEvent.tsx:99-107 | a non-blank tag input is appended trimmed and the input cleared; a blank input changes nothing; no other tag appears |
| CreateEventProperties.BlankTagIgnored | dipl-frontend/src/pages/organisation/CreateEvent.tsx:99-107 | a tag input made of a space, an ideographic space, a no-break space and a thin space counts as blank and adds nothing |
| CreateEventProperties.AddThenRemoveLast | dipl-frontend/src/pages/organisation/CreateEvent.tsx:99-114 | removing the last tag after adding one restores the tag list |
| CreateEventProperties.FileAcceptedIff | dipl-frontend/src/pages/organisation/CreateEvent.tsx:116-139 | an accepted file is stored and clears the image URL; a refused one changes only the shown rejection |
| CreateEventProperties.SizeBoundary | dipl-frontend/src/pages/organisation/CreateEvent.tsx:125 | an image of exactly 5 MB is accepted and one byte more is refused |
| MyEvents.UpcomingEvents | dipl-frontend/src/pages/organisation/MyEvents.tsx:56-59 | exactly the events starting after now, ordered by start, soonest first |
| MyEvents.PastEvents | dipl-frontend/src/pages/organisation/MyEvents.tsx:61-64 | exactly the events whose end is before now (an event without an end is never past), most recently ended first |
| MyEvents.AllEventsSorted | dipl-frontend/src/pages/organisation/MyEvents.tsx:66-69 | all events, none lost or added, latest start first |
| MyEvents.ActionsFor | dipl-frontend/src/pages/organisation/MyEvents.tsx:239-275 | editing is offered exactly when the event is not past and volunteer rating exactly when it is; applications and delete are always offered |
| MyEvents.OngoingOnlyInAll | dipl-frontend/src/pages/organisation/MyEvents.tsx:56-80 | an event under way appears neither under upcoming nor under past, only in the full list, and can be edited but not rated |
| MyEvents.UpcomingAndPastDisjoint | dipl-frontend/src/pages/organisation/MyEvents.tsx:56-64 | no event whose start precedes its end appears both under upcoming and under past |
| EventsList.OrNull | dipl-frontend/src/pages/public/EventsList.tsx:34-37 | a parameter is sent exactly when it is present and non-empty, and then unchanged |
| EventsList.ChooseRequest | dipl-frontend/src/pages/public/EventsList.tsx:26-42 | the filter endpoint is asked exactly when some filter parameter is non-empty, with the non-empty values and no tags; otherwise all events are fetched |
| EventsList.ShownEvents | dipl-frontend/src/pages/public/EventsList.tsx:44-57 | exactly the loaded events without an end date or not yet ended, soonest start first |
| EventsList.DistinctOrgIds | dipl-frontend/src/pages/public/EventsList.tsx:71-77 | every non-empty organisation id of the list, each exactly once |
| EventsList.AvgOf | dipl-frontend/src/pages/public/EventsList.tsx:89-93 | an average is shown exactly when the reply carries a non-zero number, directly or as avg_rating, and the average shown is that number |
| EventsList.RatingFrom | dipl-frontend/src/pages/public/EventsList.tsx:83-99 | a failure outside the two caught calls gives no average and no reviews; otherwise the average is the one the rating reply yields (none for a failed call), and the review count is the list's length when a list came back and 0 otherwise |
| EventsList.LoadOrgRatings | dipl-frontend/src/pages/public/EventsList.tsx:70-103 | each distinct organisation id is asked exactly once, in order of first appearance, and the ratings map has exactly those ids, each with the rating its replies give |
| EventsList.HandleFilter | dipl-frontend/src/pages/public/EventsList.tsx:105-111 | a URL parameter exists exactly for each non-empty filter, holding its value, and no other parameter is set |
| EventsList.FilterRoundTrip | dipl-frontend/src/pages/public/EventsList.tsx:12-42 | applying the form and reloading asks the filter endpoint with exactly the non-empty filters, and an all-empty form fetches all events |
| MyApplications.EndDateText | dipl-frontend/src/pages/user/MyApplications.tsx:66-73 | an end date already carrying Z or a ±hh:mm offset is parsed as given; otherwise the trimmed text gets Z appended exactly when it contains 'T' |
| MyApplications.EndDateTextStable | dipl-frontend/src/pages/user/MyApplications.tsx:66-73 | for a trimmed date-time text, adjusting an already adjusted text changes nothing |
| MyApplications.CanReview | dipl-frontend/src/pages/user/MyApplications.tsx:41-94 | an organisation can be reviewed exactly when the application is accepted, its event was loaded with an end date, and that end parses to an instant no later than now |
| MyApplications.GetEventId | dipl-frontend/src/pages/user/MyApplications.tsx:96-100 | no id without a loaded event; otherwise the event's non-empty id, else its non-empty _id, else none |
| MyApplications.BuildEventMap | dipl-frontend/src/pages/user/MyApplications.tsx:18-39 | the map holds exactly the titles whose event could be fetched, each with the fetched event; failed fetches are skipped |
| MyApplications.ActionsFor | dipl-frontend/src/pages/user/MyApplications.tsx:181-197 | cancelling is offered exactly for pending applications; the review link appears exactly when a review is possible and the event has an id, and then points at that id for an accepted application |
| EventApplications.LoadEvent | dipl-frontend/src/pages/organisation/EventApplications.tsx:35-55 | the event found by id wins; otherwise the one found by title; when both lookups fail the error of the id lookup is the one that propagates |
| EventApplications.CanReviewUser | dipl-frontend/src/pages/organisation/EventApplications.tsx:191-208 | a volunteer can be reviewed exactly when the application is accepted, the event is loaded with an end date, and that end is strictly before now |
| EventApplications.GetUserId | dipl-frontend/src/pages/organisation/EventApplications.tsx:210-212 | the user's non-empty _id, else id, else user_id, and none exactly when all three are empty |
| EventApplications.NotesPayload | dipl-frontend/src/pages/organisation/EventApplications.tsx:170-172 | the notes are sent trimmed, or as null exactly when they are blank |
| EventApplications.NotesPayloadStable | dipl-frontend/src/pages/organisation/EventApplications.tsx:171 | normalising already sent notes gives the same payload |
| EventApplications.SectionsPartition | dipl-frontend/src/pages/organisation/EventApplications.tsx:484-550 | each application with one of the three statuses lies in exactly the section of its status, any other status in none, and the section sizes add up to the number of such applications |
| EventApplications.AppId | dipl-frontend/src/pages/organisation/EventApplications.tsx:499 | a card has an application id exactly when id, _id or application_id is non-empty |
| EventApplications.CardActionsFor | dipl-frontend/src/pages/organisation/EventApplications.tsx:323-347 | accept and reject appear exactly for a pending card in the pending section that has an id, and act on that id; a pending card without an id shows the missing-id warning |
| EventApplications.DecisionsOnlyForPending | dipl-frontend/src/pages/organisation/EventApplications.tsx:484-550 | pending applications get the decision buttons exactly when they have an id; accepted and rejected ones never get actions |
| EventVolunteers.VolunteerUserId | dipl-frontend/src/pages/organisation/EventVolunteers.tsx:297-317 | the user's non-empty _id, else id, else user_id; only when all three are empty, the id remembered for the username in the map, if any; a found id is never empty |
| EventVolunteers.Enrich | dipl-frontend/src/pages/organisation/EventVolunteers.tsx:95-137 | a volunteer without a username is kept unchanged and unmapped; an id resolved from the user info or from the page's current map keeps the application unchanged and is the id recorded; only an id fetched for the username is written into the user info's `_id` and `id`, and exactly when the fetch yields a non-empty id; a recorded id is never empty and is the id the enriched user info yields |
| EventVolunteers.EnrichAll | dipl-frontend/src/pages/organisation/EventVolunteers.tsx:93-141 | one volunteer per application, each the enrichment of its application, keeping its status and username |
| EventVolunteers.EnrichAllLast | dipl-frontend/src/pages/organisation/EventVolunteers.tsx:101-102 | the map after the last volunteer is the map before it, with that volunteer's username set to its recorded id when one was recorded |
| EventVolunteers.EnrichAllEntry | dipl-frontend/src/pages/organisation/EventVolunteers.tsx:101-102 | every entry of the rebuilt map comes from a volunteer with that username whose enrichment recorded that id |
| EventVolunteers.EnrichAllHas | dipl-frontend/src/pages/organisation/EventVolunteers.tsx:101-102 | every volunteer whose enrichment recorded an id has its username in the rebuilt map |
| EventVolunteers.EnrichAllMap | dipl-frontend/src/pages/organisation/EventVolunteers.tsx:93-141 | the rebuilt map holds exactly the usernames of the volunteers that recorded an id, each with a non-empty id recorded for it |
| EventVolunteers.ReviewedUsers | dipl-frontend/src/pages/organisation/EventVolunteers.tsx:232-295 | a user counts as rated exactly when the page has an event id and some volunteer resolves to that user whose fetched reviews contain one for this event in the organisation-to-user direction; failed fetches mark nobody |
| EventVolunteers.LoadReviewedUsers | dipl-frontend/src/pages/organisation/EventVolunteers.tsx:232-295 | the loop over the volunteers collects exactly the rated users |
| EventVolunteers.RawSubmitError | dipl-frontend/src/pages/organisation/EventVolunteers.tsx:463 | the error's message, else its text detail, else the rating fallback, and never empty |
| EventVolunteers.SubmitErrorMessage | dipl-frontend/src/pages/organisation/EventVolunteers.tsx:463-470 | an error text that speaks of the event not having ended ("završen", "ended", "finished") is replaced by the fixed not-finished message; any other is shown as is |
| EventVolunteers.VolunteersPage.constructor | dipl-frontend/src/pages/organisation/EventVolunteers.tsx:28-48 | the page starts with no volunteers, an empty username map, nobody rated, nothing selected and no rating sent |
| EventVolunteers.VolunteersPage.SelectVolunteer | dipl-frontend/src/pages/organisation/EventVolunteers.tsx:319-323 | only the selection changes, and the rating error is cleared |
| EventVolunteers.VolunteersPage.LoadVolunteers | dipl-frontend/src/pages/organisation/EventVolunteers.tsx:67-145 | the new page state is the load step: a failed or non-list answer changes nothing; otherwise the accepted applications, each enriched against the current username map, replace the volunteers, the rebuilt map replaces the old one, and the rated set is recomputed |
| EventVolunteers.VolunteersPage.HandleReviewSubmit | dipl-frontend/src/pages/organisation/EventVolunteers.tsx:380-477 | the new page state is the submit step applied to the old one, the user fetch and the rating request's outcome |
| EventVolunteersProperties.OnlyAcceptedVolunteers | dipl-frontend/src/pages/organisation/EventVolunteers.tsx:90 | after a load, every volunteer is accepted and there are exactly as many volunteers as accepted applications |
| EventVolunteersProperties.LoadedVolunteers | dipl-frontend/src/pages/organisation/EventVolunteers.tsx:93-139 | after a load, a volunteer whose id resolves from its user info or the old map is its accepted application unchanged and its username is mapped; a volunteer that differs from its application has a username, no resolvable id, a fetch that found one, and only `_id` and `id` of its user info set to that id |
| EventVolunteersProperties.ServerReviewsNeverMark | backend/models/review_models.py:65-71 | with reviews shaped as the server sends them, with no event id or direction, a load marks nobody as rated |
| EventVolunteersProperties.NoUserIdNoRequest | dipl-frontend/src/pages/organisation/EventVolunteers.tsx:427-432 | a submission with no resolvable user id and no username makes no rating request and shows the user-id error |
| EventVolunteersProperties.SubmitGrowsReviewed | dipl-frontend/src/pages/organisation/EventVolunteers.tsx:448-455 | a submission never removes anyone from the rated set; a successful request adds exactly its user; at most one request is made |
| EventVolunteersProperties.ReloadForgetsSubmittedRating | dipl-frontend/src/pages/organisation/EventVolunteers.tsx:448-459 | right after a successful rating marks its user, the reload that follows unmarks every user when the reviews have the server's shape |
| Text.Trim | dipl-frontend/src/pages/organisation/CreateEvent.tsx:48 | the result neither starts nor ends with white space, white space being the ECMAScript set that `String.prototype.trim` removes |
| Text.TrimIsInnerRun | dipl-frontend/src/pages/organisation/CreateEvent.tsx:48 | the trimmed text is the run of the input after its leading white space, followed only by white space |
| Text.TrimStart | dipl-frontend/src/pages/organisation/CreateEvent.tsx:48 | only leading white space of the ECMAScript set is removed, and the result does not start with white space |
| Text.TrimIdempotent | dipl-frontend/src/pages/organisation/CreateEvent.tsx:48 | trimming twice is trimming once |
| Text.Lower | dipl-frontend/src/auth/RegisterOrg.tsx:87 | the same length, with each upper-case ASCII letter lowered and every other character kept |
| Text.NatToString | dipl-frontend/src/components/Toast.tsx:77 | a non-empty string of decimal digits without a leading zero, except for 0 itself |
| Text.ParseNatToString | dipl-frontend/src/components/Toast.tsx:77 | reading the decimal digits back gives the number |
| Text.NatToStringInjective | dipl-frontend/src/components/Toast.tsx:77 | different numbers print differently |
| Text.Split | dipl-frontend/src/auth/AuthContext.tsx:28 | at least one part, no part containing the separator, and the whole text when the separator does not occur |
| Text.JoinSplit | dipl-frontend/src/auth/AuthContext.tsx:28 | joining the parts with the separator gives back the text |
| Sorting.SortBy | dipl-frontend/src/pages/organisation/MyEvents.tsx:67-69 | the sort keeps the length |
| Sorting.SortBySorted | dipl-frontend/src/pages/organisation/MyEvents.tsx:67-69 | the result is ordered by the key |
| Sorting.SortByPermutation | dipl-frontend/src/pages/organisation/MyEvents.tsx:67-69 | the result is a permutation of the input |
| Sorting.KeyClassInsert | dipl-frontend/src/pages/organisation/MyEvents.tsx:67-69 | inserting an element puts it first among the elements with its key and leaves the order of every other key's elements alone |
| Sorting.SortByStable | dipl-frontend/src/pages/organisation/MyEvents.tsx:67-69 | the sort is stable: for every key value, the elements with that key appear in the result in their input order |
| Sorting.Filter | dipl-frontend/src/pages/organisation/MyEvents.tsx:58 | exactly the elements satisfying the predicate, never more than the input |

## Left out

- Network, browser and database I/O are not modelled. The model takes what `fetch`, the MongoDB driver, `localStorage`, `WebSocket` and `setTimeout` return as parameters, and models the state they leave behind. Timers appear as the delays they are given.
- Concurrency and the interleaving of `async` calls are not modelled. Each handler runs to completion before the next starts.
- Floating-point arithmetic is not modelled:
  - MongoDB's `$avg` of ratings is kept as a sum and a count.
  - The frontend's rating averages are `real`s.
  - `avg_applications_per_event` is an exact ratio, so the division and `round(..., 2)` (backend/services/statistics_service.py:47, 65) are not applied.
- bcrypt hashing is the `hashed` argument, and `datetime.fromisoformat` and `new Date(...)` are the `parseIso` and `instant` arguments. Non-ASCII case folding in `toLowerCase` and `.lower()` is not modelled: only A-Z are lowered.
- EventService.InvalidIsoDate: the rejected text is quoted between plain single quotes. Python quotes it with `repr`, which also escapes quotes, backslashes and non-printable characters; that escaping is not modelled.
- `ObjectId(...)` raising `InvalidId` on malformed ids in the services is not modelled. The services take ObjectIds.
- `application_service.get_applications_for_event` (backend/services/application_service.py:197-199) is not modelled. It lists an event's applications with no ownership check and no logic of its own beyond the ObjectId conversion.
- The first `create_org_to_user_review` definition (backend/services/review_service.py:77-118) is not modelled. The later definition in the same class replaces it, and that later one is the one modelled.
- `event_service` `create_event`, `get_all_events`, `get_events_by_organisation` and `search_events`, and `organisation_service.find_organisations` (backend/services/organisation_service.py:51-52), are not modelled. They forward to a repository call with no logic of their own.
- The services call repository methods that the repositories do not define:
  - `OrganisationRepository` (backend/repositories/organisations_repository.py:4-27) defines only `find_pending`, `update_status`, `create_organisation` and `find_by_email`;
  - yet the services call `find_by_id` on it (backend/services/application_service.py:91, 108, 140; backend/services/review_service.py:220; backend/services/organisation_service.py:56), `find_exact_by_username` (backend/services/statistics_service.py:15), `find_by_username` (backend/services/organisation_service.py:62) and `find_organisations` (backend/services/organisation_service.py:52);
  - `EventRepository` has no `find_by_ids` (backend/services/application_service.py:83).
  - Each such call would raise `AttributeError` at run time. The model gives these calls the lookups their names and the models intend: `Database.FindOrganisation` matches the id, `Database.FindOrganisationByUsername` matches the username exactly, and the events of a list of ids are looked up one id at a time with `Database.FindEvent`.
- ApplicationService.ApplyStep models the corrected `apply`. As written, the code reads `current_user.first_name` (backend/services/application_service.py:42). `UserDB` declares no such field (backend/models/user_models.py:32-73), so past the two guards every call raises `AttributeError`, which the route answers with a 500. `ApplicationService.ApplyAsWritten` is that code (see Findings). The corrected step stores the applicant snapshot it is given, first name included.
- ApplicationService.Apply runs the corrected step on the shared store, so it succeeds where the code as written answers 500.
- ApplicationServiceProperties.ApplyOnce is about the corrected apply. As written, no apply gets past the guards, so there is never a first application to repeat.
- ApplicationServiceProperties.NoReapplyAfterCancel is about the corrected apply, for the same reason.
- Repository internals, such as the string conversions in `find_by_id`, are not part of this model.
- EventService.FilterEvents evaluates the query it builds against the stored events. The location is sent to MongoDB as a case-insensitive `$regex` (backend/services/event_service.py:44-45), and the model reads that pattern as literal text matched regardless of ASCII case. Regular-expression syntax in the pattern (`.`, `*`, anchors, classes) and non-ASCII case folding are not modelled.
- `EmailStr` validation is not modelled. `UserModels` and `OrganisationModels` treat `email` as a plain string (backend/models/user_models.py:34, 77; backend/models/organisation_models.py:40, 64, 93), so a malformed address that the API rejects with a 422 is accepted by the model.
- ReviewService.ToPublicReview: Python's `str.strip` is modelled with the JavaScript white-space set of `Text.Trim`. The two differ on U+001C-U+001F and U+0085, which Python strips and JavaScript keeps, and on U+FEFF, which JavaScript trims and Python keeps.
- EventVolunteers.Enrich: on the fetch path only the fetched id is written into `_id` and `id`. The merge of the rest of the fetched profile (`profile_image`, first and last name, and the other fields copied by `Object.assign`) is not modelled.
- The week range of `date_helpers` is modelled on day numbers with the time of day kept apart. The month range is modelled on calendar dates. Time zones are not modelled.
- `MongoCleaner`: a dictionary is modelled as a sequence of entries, so duplicate keys are possible in the model. A Python dict would not allow them.
- `WsManager`: `websocket.accept()` is not modelled, and `send_text` becomes the returned sequence of sent messages. A failure while sending is not modelled.
- `AuthContext` `registerUser` and `registerOrg` (dipl-frontend/src/auth/AuthContext.tsx:128-136) are not modelled. They only forward to the API client.
- Console logging, toast rendering and the toasts' auto-dismiss timers are not modelled.
- `EventVolunteers.VolunteersPage.HandleReviewSubmit` does not perform the reload that follows a successful rating. That reload is a separate `LoadVolunteers` call, and `EventVolunteersProperties.ReloadForgetsSubmittedRating` composes the two.
- `EventVolunteers.VolunteersPage.SelectVolunteer`: only the selection part of `openReviewModal` is modelled. Its prefetch of the user id repeats the lookup that `HandleReviewSubmit` models.
- `MyEvents.UpcomingEvents`, `MyEvents.PastEvents` and `EventsList.ShownEvents` state which events are listed and in what order. They do not state how many times an event that appears twice in the input is listed. Events with equal start times keep their loaded order, by `Sorting.SortByStable`.
- `Sorting.SortBy`: the model is a stable insertion sort. It agrees with `Array.prototype.sort` only when the comparator's difference never overflows or becomes `NaN`. Invalid dates, which give `NaN`, are not modelled.
- `Notifications`: the client reads `count` from the unread-count answer, but the server sends `unread`. The model takes what the client reads as a parameter, and `NotificationsProperties.UnreadCountStaysZero` shows the consequence.

## Findings

| source | as written | input that shows it | evidently intended | confidence | as-written member | corrected member |
|---|---|---|---|---|---|---|
| backend/services/review_service.py:58 | the user-to-organisation review stores `event["organisation_id"]`, which the event repository has already turned into text (backend/repositories/events_repository.py:16) | any successful user-to-organisation review, then `get_reviews_received_by_org` or `get_org_avg_rating` for that organisation, both of which match the ObjectId | store the organisation's ObjectId, as the organisation-to-user review does | not executed | ReviewServiceProperties.UserToOrgReviewInvisible | ReviewServiceProperties.UserToOrgReviewCounted |
| backend/services/application_service.py:40-45 | the applicant snapshot reads `current_user.first_name`, but `UserDB` (backend/models/user_models.py:32-73) declares no first name and admits no extra attributes, so the read raises `AttributeError` and the request ends in a 500 before anything is stored or notified | any existing event the signed-in user has not applied to yet | store the pending application with the applicant's snapshot and notify the organisation | not executed | ApplicationServiceProperties.ApplyAsWrittenCrashes | ApplicationService.ApplyStep |
