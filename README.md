# Travel planner core, modelled in Dafny

This project models the deterministic logic of a travel planner made of
three parts: a small FastAPI generation service, an Express/Mongoose
backend and a React frontend.

- **Generation service.** The pydantic schemas for activities, itineraries
  and chat, and the two prompt renderers: the itinerary prompt and the
  chatbot's conversation history. The OpenAI call is a function parameter.
- **Backend.** The authentication token lifecycle over three stores
  (users, sessions, reset tokens). The trip handlers that append to and
  filter a trip's city list. The community like toggle and comment append.
  The search precedence and dedup rule. The payment-webhook dispatch.
- **Frontend.** The client-side data logic: dashboard filters, sorts,
  grouping and showcase fill; the itinerary builder's editing state; the
  community page's optimistic updates and rollbacks; the itinerary
  viewer's budget breakdown and day navigation; analytics filtering,
  sampling, pagination and CSV export; the typewriter, carousel, initials
  and newsletter-email logic.

Conventions used throughout:

- Dates are integer milliseconds since the epoch; money, costs and
  durations are integers.
- "Now", network replies, database lookups, hashes, tokens and the mail
  transport are parameters.
- A Mongo collection is a sequence in insertion order, so `findOne` is the
  first match.
- JavaScript's `Array.prototype.sort` is a stable insertion sort
  (`Sorting.Sort`); `localeCompare` is code-unit lexicographic order.
- Case mapping covers ASCII letters only.
- Objects whose fields the source updates in place (the auth stores, the
  trip and post documents, React component state, the typewriter) are
  classes. A class method states its whole new state, mostly as a pure
  transition function of the old one, and the properties are lemmas about
  those functions.

In the generation service, sections carry full activity records, not
index references, and no code resolves references or wraps results in a
success/failure type. The pydantic models do not set `extra="forbid"`, so
unknown keys are ignored (`ItineraryModels.ActivityIgnoresUnknownKeys`). A
failed OpenAI call is not modelled.

In the backend, `User.create` validates against backend/models/User.js,
which requires `firstName` and `lastName`. Neither signupUser nor
googleAuth's new-user path supplies them, so both calls reject and the
handlers' catch blocks answer 500. The model follows the code: no request
ever adds a user (`AuthController.NoNewUsers`).

## Model

| member | source | states |
|---|---|---|
| `Prompts.ActivityLine` | python/utils/prompts.py:3 | one activity's line is `- {name} ({category}) in city {cityId}`; a dict missing name, category or cityId raises KeyError naming the first missing key in that order (`FirstMissing`) |
| `Prompts.FirstMissing` | python/utils/prompts.py:3 | the first of the keys, in order, that the dict lacks: none iff every key is present, otherwise a missing key all of whose predecessors are present |
| `Prompts.ActivityLines` | python/utils/prompts.py:2-4 | exactly one line per activity, in input order; the whole list fails iff some dict lacks one of the three keys, with the error of the first such dict |
| `Prompts.ItineraryPrompt` | python/utils/prompts.py:1-22 | the prompt succeeds iff every activity has the three keys, and is then the fixed labels around name, description, start date, end date and the "\n"-joined activity lines |
| `Prompts.CallerNeverRaises` | python/utils/prompts.py:3 | for dicts made by `Activity.dict()` the prompt never raises, and a missing category is written as "None" |
| `Prompts.OneLinePerActivity` | python/utils/prompts.py:2-4 | the block is joined by single newlines with no trailing one: splitting it on "\n" gives back exactly the activity lines |
| `Prompts.EmptyActivitiesEmptyBlock` | python/utils/prompts.py:2-15 | an empty activity list renders an empty block between the activities label and the rules |
| `Prompts.FieldsAfterLabels` | python/utils/prompts.py:9-15 | trip name, description, start date, end date and the activity block each appear verbatim right after their label |
| `Prompts.RulesAreConstant` | python/utils/prompts.py:17-22 | every successful prompt ends with the same constant rules text, whatever the arguments |
| `Prompts.OnlyLineKeysReachPrompt` | python/utils/prompts.py:3 | two activity lists that agree on name, category and cityId give the same prompt: description, cost, duration and images never reach it |
| `ChatbotService.HistoryLines` | python/services/chatbot_service.py:8-10 | one `role: text` line per message, oldest first, with the role copied unchecked |
| `ChatbotService.History` | python/services/chatbot_service.py:8-10 | an empty conversation gives an empty history; otherwise, when no role or text holds a line break, splitting the history on "\n" gives exactly one `role: text` line per message, in order |
| `ChatbotService.ChatPrompt` | python/services/chatbot_service.py:12 | the prompt is the fixed header, then the history, then the fixed footer "\n\nRespond with a single concise message." |
| `ChatbotService.GenerateChatResponse` | python/services/chatbot_service.py:15-20 | the reply is the foreign structured call's result for the built prompt, returned unchanged |
| `ItineraryModels.ParseActivity` | python/models/itinerary.py:4-11 | an Activity is valid iff name and cityId are strings and the optional fields are absent, null or of their type (a number, a numeric string or a bool for cost and duration); the record holds name and cityId, description and category or None, cost and duration coerced to numbers or None, and images as given, [] when absent and None when null |
| `ItineraryModels.ParseActivities` | python/models/itinerary.py:17 | a `List[Activity]` is valid iff every item is an object that is a valid Activity; the result has one record per item, in order |
| `ItineraryModels.ParseActivityList` | python/models/itinerary.py:17 | a required activities field must be present and a list of valid activities; the result holds each item's Activity, in order |
| `ItineraryModels.ParseSection` | python/models/itinerary.py:13-18 | a Section requires tripId, name, description and a list of full Activity records, budget being optional; the section holds those values, the parsed activities and the budget (None when absent or null) |
| `ItineraryModels.ParseItineraryRequest` | python/models/itinerary.py:20-25 | a request requires name, description, start_date, end_date as plain strings (no format check) and a list of activities, and holds exactly those values |
| `ItineraryModels.ParseSections` | python/models/itinerary.py:28 | the sections list is valid iff every item is a valid Section; the result holds each item's Section, in order |
| `ItineraryModels.ParseItineraryResponse` | python/models/itinerary.py:27-28 | a response is valid iff its one field `sections` is a list of valid sections, and holds each item's Section, in order |
| `ItineraryModels.ActivityDefaults` | python/models/itinerary.py:4-11 | name and cityId alone make a valid Activity with every other field at its default |
| `ItineraryModels.ActivityRequiresNameAndCity` | python/models/itinerary.py:5-7 | without name or without cityId there is no Activity, and each missing one is reported |
| `ItineraryModels.AnyCategoryAccepted` | python/models/itinerary.py:8 | category is an unconstrained string: any value is accepted and kept |
| `ItineraryModels.ActivityIgnoresUnknownKeys` | python/models/itinerary.py:4-11 | keys the schema does not declare are ignored, not rejected |
| `ItineraryModels.SectionHasNoDates` | python/models/itinerary.py:13-18 | a Section has no date fields: adding start_date and end_date changes nothing |
| `ItineraryModels.SectionRejectsActivityIds` | python/models/itinerary.py:17 | a section whose activities are ids (strings) instead of records is rejected |
| `ItineraryModels.ResponseReadsOnlySections` | python/models/itinerary.py:27-28 | a response reads exactly one field, `sections` |
| `ActivityModels.ParseActivityCreate` | python/models/activity.py:4-9 | an ActivityCreate is valid iff name is a string and each optional field is absent, null or of its type (a number, a numeric string or a bool for cost and duration); the record holds the name, description and category or None, and cost and duration coerced to numbers or None |
| `ActivityModels.ParseActivityCreates` | python/models/activity.py:12 | the activities list is valid iff every item is a valid ActivityCreate, one record per item |
| `ActivityModels.ParseActivitiesResponse` | python/models/activity.py:11-12 | the response is valid iff `activities` is a list of valid items, and holds each item's ActivityCreate, in order |
| `ActivityModels.NameAloneSuffices` | python/models/activity.py:4-9 | a name alone is a valid ActivityCreate with every other field None |
| `ActivityModels.NameRequired` | python/models/activity.py:5 | without a name there is no ActivityCreate, and the first error is the missing name |
| `ActivityModels.NoIdCityOrImages` | python/models/activity.py:4-9 | id, cityId and images are not fields: whatever they hold, the result is the same |
| `ActivityModels.AnyCategory` | python/models/activity.py:7 | category is an unconstrained string: any value is accepted and kept |
| `ActivityModels.LaxCost` | python/models/activity.py:8 | pydantic's lax mode: the decimal text of any integer and a bool are valid costs, coerced to that integer and to 1 or 0; a non-numeric string is rejected |
| `Json.IntText` | python/models/activity.py:8 | a text reads as a number exactly when it is a non-empty run of decimal digits, optionally after one sign |
| `Json.IntTextRoundTrip` | python/models/activity.py:8 | reading back the decimal text of any integer gives that integer |
| `Json.OptionalNum` | python/models/activity.py:8-9 | an optional float field is valid iff it is absent, null, a number, a bool or a numeric text; it then holds the coerced number, None when absent or null, and a wrong type is reported under the field's name |
| `ActivityModels.NoLengthBound` | python/models/activity.py:11-12 | the activities list has no length bound: n valid items give n activities, for every n |
| `ChatbotModels.ParseChatMessage` | python/models/chatbot.py:4-6 | a message is valid iff role and text are both strings, and keeps both as given |
| `ChatbotModels.ParseChatMessages` | python/models/chatbot.py:9 | the conversation list is valid iff every item is a valid message, one message per item |
| `ChatbotModels.ParseChatRequest` | python/models/chatbot.py:8-9 | a request requires `conversation`, a list of valid messages, and holds one message per item with that item's role and text |
| `ChatbotModels.ParseChatResponse` | python/models/chatbot.py:11-12 | a response requires the string field `reply` and keeps it |
| `ChatbotModels.EmptyConversationAccepted` | python/models/chatbot.py:8-9 | an empty conversation is a valid request |
| `ChatbotModels.AnyRoleAccepted` | python/models/chatbot.py:5 | role is free text: any string, including "bot", is accepted and kept |
| `ChatbotModels.NoDefaults` | python/models/chatbot.py:4-12 | no field has a default: an empty object is rejected by every model, with one missing-field error per field |
| `ChatbotModels.ResponseReadsOnlyReply` | python/models/chatbot.py:11-12 | a response has exactly one field: keys other than `reply` change nothing |
| `AuthController.Signup` | backend/controllers/authController.js:34-72 | 400 iff a required field is empty, checked before the lookup; 409 iff the email exists; otherwise `User.create` rejects the document and the answer is 500 "Server error during signup"; the stores never change |
| `AuthController.Login` | backend/controllers/authController.js:74-123 | 401 iff the email is unknown or the password does not match, with no session and no cookie; otherwise exactly one session with expiries now+15 min and now+48 h, a 48 h refresh cookie, and a reply holding the access token, the user's id, name, email and role (`created_at` reads a field the schema names `createdAt`, so it is absent) and the fixed client metadata |
| `AuthController.Refresh` | backend/controllers/authController.js:125-166 | rejects with 401 in order: no cookie, a token that fails verification, no session or another user's session, an expired refresh; when all checks pass, only that session's jwtToken and expiresAt (now+15 min) change; 200 iff the checks pass and the user still exists, with the new access token and that user's name, email, role and id only, no metadata; otherwise 401 |
| `AuthController.Logout` | backend/controllers/authController.js:168-188 | always 200; without a cookie nothing is deleted and the cookie is kept; with one, only the first session holding that refresh token is removed and the cookie is cleared |
| `AuthController.GoogleAuth` | backend/controllers/authController.js:190-272 | a failed token check answers 500 and changes nothing; an unknown email reaches `User.create`, which rejects, so 500 and nothing changes; 200 iff the token verifies and the email is known, with exactly one new session, the 48 h refresh cookie, the access token, the user's id, name, email, city, country and role, and the fixed client metadata |
| `AuthController.SendReset` | backend/controllers/authController.js:274-323 | an empty email answers 400; an unknown email answers the generic 200 and changes nothing; a known user's old tokens are deleted before one token with 1 h expiry is stored; a failed mail answers 500 with the token kept |
| `AuthController.ResetConfirm` | backend/controllers/authController.js:325-362 | 200 iff both fields are given, the token exists, has not expired and its user exists; on 200 that user's hash becomes the hash of the new password, every other user is unchanged and the token document is removed; every other case answers 400 with no password changed; sessions are never touched |
| `AuthController.CreateUser` | backend/models/User.js:4-14 | `User.create` stores the document iff the schema accepts it: firstName, lastName, email, passwordHash and city present and non-empty, and role, when given, "user" or "admin"; a stored user is appended with the next id |
| `AuthController.NewUserDocsRejected` | backend/controllers/authController.js:49-56 | the documents signupUser and googleAuth pass to `User.create` lack firstName and lastName, so the schema refuses them whatever the request holds |
| `AuthController.NoNewUsers` | backend/controllers/authController.js:34-272 | neither signupUser nor googleAuth changes the user store, for every input |
| `AuthController.SignupKeepsValid` | backend/controllers/authController.js:34-72 | signup keeps ids fresh and unique and at most one reset token per user |
| `AuthController.LoginKeepsValid` | backend/controllers/authController.js:74-123 | login keeps the store invariant |
| `AuthController.RefreshKeepsValid` | backend/controllers/authController.js:125-166 | refresh keeps the store invariant |
| `AuthController.LogoutKeepsValid` | backend/controllers/authController.js:168-188 | logout keeps the store invariant |
| `AuthController.GoogleAuthKeepsValid` | backend/controllers/authController.js:190-272 | Google sign-in keeps the store invariant |
| `AuthController.SendResetKeepsValid` | backend/controllers/authController.js:288-299 | every reset request keeps ids unique and each user with at most one reset token |
| `AuthController.ResetConfirmKeepsValid` | backend/controllers/authController.js:335-355 | every confirmation keeps the store invariant |
| `AuthController.ResetRequestSameAnswer` | backend/controllers/authController.js:280-285 | an unknown email gets the same reply as a registered one whose mail went out |
| `AuthController.ConsumedTokenGone` | backend/controllers/authController.js:354-355 | a successful confirmation leaves no document with the used token's id |
| `AuthController.ResetTokenSingleUse` | backend/controllers/authController.js:335-355 | a token that reset a password once is refused as invalid the second time |
| `AuthController.ExpiredTokenDeleted` | backend/controllers/authController.js:340-343 | an expired token is deleted and refused, and no password changes |
| `AuthController.RefreshTouchesOneSession` | backend/controllers/authController.js:133-151 | refresh changes at most the one session found by the cookie, and in it only jwtToken and expiresAt; users and reset tokens are unchanged |
| `AuthController.RefreshExpired` | backend/controllers/authController.js:139-141 | an expired refresh token is refused with 401 and changes nothing |
| `AuthController.LogoutRemovesOneSession` | backend/controllers/authController.js:175 | logout removes exactly one session and keeps the others in order |
| `AuthController.AuthStore.SignupUser` | backend/controllers/authController.js:34-72 | the handler leaves the stores and reply that `Signup` gives and keeps the store invariant |
| `AuthController.AuthStore.LoginUser` | backend/controllers/authController.js:74-123 | the in-place handler leaves the stores and reply that `Login` gives and keeps the store invariant |
| `AuthController.AuthStore.RefreshAccessToken` | backend/controllers/authController.js:125-166 | the handler's two field assignments and save leave the stores and reply that `Refresh` gives, and keep the store invariant |
| `AuthController.AuthStore.LogoutUser` | backend/controllers/authController.js:168-188 | the in-place handler leaves the stores and reply that `Logout` gives and keeps the store invariant |
| `AuthController.AuthStore.GoogleSignIn` | backend/controllers/authController.js:190-272 | the handler leaves the stores and reply that `GoogleAuth` gives and keeps the store invariant |
| `AuthController.AuthStore.SendResetPasswordEmail` | backend/controllers/authController.js:274-323 | the delete-then-insert sequence leaves the stores and reply that `SendReset` gives, and keeps at most one token per user |
| `AuthController.AuthStore.ResetPasswordConfirm` | backend/controllers/authController.js:325-362 | the in-place handler leaves the stores and reply that `ResetConfirm` gives, and keeps the store invariant |
| `TripController.WithoutStopSpec` | backend/controllers/tripController.js:156-158 | removing by id drops every entry with that id, keeps every other entry in order, and changes nothing when no entry matches |
| `TripController.AddThenRemove` | backend/controllers/tripController.js:137-158 | removing an entry just appended under a fresh id gives back the original list |
| `TripController.FreshStopRemovable` | backend/controllers/tripController.js:122-165 | while every trip and stop id is below the store's next id, a stop added under that id and then removed by it leaves the trip's list as it was |
| `TripController.TripStore.CreateTrip` | backend/controllers/tripController.js:9-35 | 400 and nothing stored unless userId, title, description, startDate and endDate are all present; 500 and nothing stored when a date does not cast to a Date; otherwise one private trip with no cities and the cast dates is appended, whatever the date order; keeps every trip and stop id below the next id |
| `TripController.TripStore.DeleteTrip` | backend/controllers/tripController.js:83-97 | deletes only the trip matching both the id and the caller's userId; otherwise 404 and nothing changes; keeps every trip and stop id below the next id |
| `TripController.TripStore.AddActivityToTrip` | backend/controllers/tripController.js:122-144 | 400 when cityId, startDate or endDate is falsy or order is undefined (0 and null pass); 404 for a trip the caller does not own; 500 and nothing saved when cityId is not an ObjectId, a date does not cast, or order is null or not a Number; otherwise exactly one entry with the cast values appended at the end of that trip's cities and nothing else changed; keeps every trip and stop id below the next id |
| `TripController.TripStore.RemoveActivityFromTrip` | backend/controllers/tripController.js:146-165 | 404 for a trip the caller does not own; otherwise only that trip's cities change, filtered by entry id; keeps every trip and stop id below the next id |
| `CommunityController.LikeCount` | backend/controllers/communityController.js:44-51 | the returned count is one more than before when the user had not liked, and one fewer on a duplicate-free list when they had |
| `CommunityController.DoubleToggleRestores` | backend/controllers/communityController.js:44-48 | on a duplicate-free likes list two toggles by one user restore the set of likers and the length |
| `Collections.Toggle` | backend/controllers/communityController.js:44-48 | the user is in the result iff they were not in the list; every other id is kept; a present user is removed everywhere, an absent one appended once |
| `Collections.ToggleTwice` | backend/controllers/communityController.js:44-48 | two toggles restore membership, and restore the list itself when the user was absent |
| `CommunityController.PostStore.CreatePost` | backend/controllers/communityController.js:4-20 | 201 iff the request carries a user id: without one the required userId fails the save, the answer is 500 and nothing is stored; otherwise the post is stored with title, content and images exactly as given, no likes and no comments |
| `CommunityController.PostStore.ToggleLike` | backend/controllers/communityController.js:36-55 | 404 and nothing saved for a missing post; otherwise only that post's likes are toggled and the reply's count is their new length |
| `CommunityController.PostStore.AddComment` | backend/controllers/communityController.js:58-76 | 404 and nothing saved for a missing post; otherwise exactly one comment appended at the end of that post and earlier comments kept |
| `SearchRoutes.Search` | backend/routes/searchRoutes.js:7-56 | a blank or whitespace-only q answers 400; an invalid pattern 500; a matching city wins, with every activity of that city; the activity search runs only when no city matches; nothing matching answers 404 |
| `SearchRoutes.ActivityBranch` | backend/routes/searchRoutes.js:27-51 | 404 iff no activity matched; 500 iff a matched activity's city is gone; otherwise the matched activities each with its populated city |
| `SearchRoutes.MatchingCities` | backend/routes/searchRoutes.js:16 | the cities whose name matches the pattern, and all of them |
| `SearchRoutes.MatchingActivities` | backend/routes/searchRoutes.js:27 | the activities whose name matches the pattern, and all of them |
| `SearchRoutes.SimilarPool` | backend/routes/searchRoutes.js:37 | the candidates for `similar` are exactly the activities of the given category that are not among the excluded ids, in collection order |
| `SearchRoutes.Similar` | backend/routes/searchRoutes.js:33-41 | `similar` holds at most five activities and none when the first match has no category |
| `SearchRoutes.Populate` | backend/routes/searchRoutes.js:28 | populating an activity attaches the city with its cityId, and null exactly when no such city exists |
| `SearchRoutes.ActivityHitMatches` | backend/routes/searchRoutes.js:27-48 | an activity result lists exactly the activities whose name matches, each with its city |
| `SearchRoutes.CitiesDistinctByFirstOccurrence` | backend/routes/searchRoutes.js:32 | `cities` has one entry per distinct city id of the matches, in order of first occurrence |
| `SearchRoutes.SimilarActivities` | backend/routes/searchRoutes.js:34-41 | `similar` has at most 5 activities, all of the first match's category and none of them matched; it is empty when that category is missing, and otherwise is the first five candidates in collection order, each populated |
| `SearchRoutes.Suggest` | backend/routes/searchRoutes.js:58-78 | a blank q gives []; otherwise up to 5 matching city names followed by up to 5 matching activity names, at most 10 in all |
| `SearchRoutes.SuggestionsMatch` | backend/routes/searchRoutes.js:65-71 | every suggestion is the name of a matching city, then of a matching activity |
| `SearchRoutes.DuplicatesKept` | backend/routes/searchRoutes.js:68-71 | a name shared by a matching city and a matching activity is suggested twice |
| `Collections.MapValuesSpec` | backend/routes/searchRoutes.js:32 | the values of a Map built from keyed entries have the distinct keys in first-occurrence order, each holding the last value set for it |
| `PaymentRoutes.HandleWebhook` | backend/routes/paymentRoutes.js:30-79 | a signature mismatch answers 400 whatever the event; mail is sent iff the signature holds, the event is payment.captured and the notes carry an email; a failed send answers 500; any other event answers 200 "Webhook received" |
| `PaymentRoutes.Greeting` | backend/routes/paymentRoutes.js:47 | the greeting is the full name when given, else "Participant", never empty |
| `PaymentRoutes.ConfirmationMail` | backend/routes/paymentRoutes.js:54-57 | the mail goes to the notes' email with subject "Registration Confirmation" |
| `PaymentRoutes.MissingEmailRefused` | backend/routes/paymentRoutes.js:42-51 | a captured payment with missing notes or no email answers 400 and sends nothing |
| `PaymentRoutes.MailMentionsNameAndRegistration` | backend/routes/paymentRoutes.js:58-65 | the mail starts "Hello " with the greeting name and names the registration id right after its label |
| `Dashboard.UnsortedSpec` | frontend/src/pages/Dashboard.tsx:665-720 | a city survives the filters exactly when it is in the list and passes the text query (lowercased name or country contains the lowercased, untrimmed query when the trimmed query is non-empty), the country filter and the category predicate |
| `Dashboard.CitiesSorted` | frontend/src/pages/Dashboard.tsx:723-736 | each of the three orders sorts a permutation of the filtered list |
| `Dashboard.FilteredCities` | frontend/src/pages/Dashboard.tsx:723-736 | filteredCities is a reordering of the filtered cities, sorted by the chosen order |
| `Dashboard.FilteredCitiesSpec` | frontend/src/pages/Dashboard.tsx:665-736 | filteredCities holds exactly the cities passing every filter, as a reordering of them, sorted by cost ascending, by name, or by popularity descending with a missing number taken as 0 |
| `Dashboard.UnknownCategoryKeepsAll` | frontend/src/pages/Dashboard.tsx:716-719 | a category key without a predicate filters nothing |
| `Dashboard.CountryOptionsSpec` | frontend/src/pages/Dashboard.tsx:659-663 | the options are "all" followed by every country of the cities exactly once, in sorted order |
| `Dashboard.PermutationNoRepeats` | frontend/src/pages/Dashboard.tsx:659-663 | a reordering of a list without repeats has no repeats, so sorting the country set keeps it duplicate-free |
| `Dashboard.UpcomingSorted` | frontend/src/pages/Dashboard.tsx:780-785 | the upcoming trips sorted by start are a permutation of the upcoming trips, in start order |
| `Dashboard.UpcomingByStartSpec` | frontend/src/pages/Dashboard.tsx:780-785 | the sorted upcoming list is non-empty iff some trip is upcoming, and its head is an upcoming trip starting no later than any other |
| `Dashboard.MapTripPriority` | frontend/src/pages/Dashboard.tsx:753-786 | the map trip is the first ongoing trip containing now in list order if one exists, else the first trip completed within the last week, else the upcoming trip with the earliest start, else none |
| `Dashboard.MapTrip` | frontend/src/pages/Dashboard.tsx:753-786 | the map trip is one of the trips, and there is none exactly when no trip is ongoing at now, none completed within the last week and none upcoming |
| `Dashboard.StatusCountsPartition` | frontend/src/pages/Dashboard.tsx:1759-1762 | the upcoming, ongoing and completed counts add up to the number of trips |
| `Dashboard.PlannedDays` | frontend/src/pages/Dashboard.tsx:1764-1767 | the summed trip days are at least the number of trips, each trip counting at least one day |
| `Dashboard.TravelStats` | frontend/src/pages/Dashboard.tsx:1759-1768 | the three status counts partition the trips, total days are at least the trip count, and total cities is 0 iff no trip has a city stop |
| `Dashboard.CountStatus` | frontend/src/pages/Dashboard.tsx:1759-1762 | a status count is at most the number of trips and is 0 exactly when no trip has that status |
| `Dashboard.CityStops` | frontend/src/pages/Dashboard.tsx:1763 | the summed city stops are 0 exactly when every trip's city list is empty |
| `Dashboard.Highlights` | frontend/src/pages/Dashboard.tsx:1312-1326 | the count is the number of trips that have not ended, the days are their planned days (at least the count) and the budget the sum of their estimates; with no such trip both are 0 |
| `Dashboard.NotEnded` | frontend/src/pages/Dashboard.tsx:1320 | the trips Highlights counts are exactly those whose end date is not yet past, whatever their status |
| `DashboardItinerary.FindByName` | frontend/src/pages/Dashboard.tsx:811-819 | a city found by name has that name and coordinates, and lies in the given country when one is given |
| `DashboardItinerary.FindCity` | frontend/src/pages/Dashboard.tsx:811-819 | an empty key finds nothing; a found city is a known city with coordinates whose id or name is the key |
| `DashboardItinerary.FindCitySpec` | frontend/src/pages/Dashboard.tsx:811-819 | the first city with the id and coordinates wins; without one, the first city with the name (in the country when given) is taken iff it has coordinates |
| `DashboardItinerary.Resolve` | frontend/src/pages/Dashboard.tsx:832-850 | an activity resolves to a known city with coordinates or to nothing |
| `DashboardItinerary.RefHits` | frontend/src/pages/Dashboard.tsx:832-858 | every hit of a section carries that section's start and end and a known city |
| `DashboardItinerary.SectionHits` | frontend/src/pages/Dashboard.tsx:826-858 | every hit carries a known city and the dates of one of the sections |
| `DashboardItinerary.Merge` | frontend/src/pages/Dashboard.tsx:850-873 | after a hit its city id has a record, and the insertion order gains the id exactly when it had none |
| `DashboardItinerary.Aggregate` | frontend/src/pages/Dashboard.tsx:829-875 | merging the hits in order yields at most one key per hit |
| `DashboardItinerary.AggregateSpec` | frontend/src/pages/Dashboard.tsx:859-875 | the aggregate holds one record per city id that was hit, spanning from the earliest start to the latest end of its hits |
| `DashboardItinerary.ItineraryCitiesSpec` | frontend/src/pages/Dashboard.tsx:824-883 | the map lists each hit city id exactly once, with the earliest start and latest end of the sections leading to it, ordered by that start; every city drawn is known and has coordinates |
| `DashboardItinerary.LoadItinerary` | frontend/src/pages/Dashboard.tsx:788-896 | with no map trip or no sections the list is empty; otherwise the aggregation loop over the sections yields exactly the itinerary cities above |
| `DashboardItinerary.AddSection` | frontend/src/pages/Dashboard.tsx:831-874 | the inner loop over one section's references leaves the aggregate of all hits so far followed by that section's hits |
| `DashboardShowcase.Fallbacks` | frontend/src/pages/Dashboard.tsx:273-382 | every fallback spot has an image; a known category has exactly four fallbacks and any other key none |
| `DashboardShowcase.PoolSpec` | frontend/src/pages/Dashboard.tsx:1453 | the pool is the cities passing the category predicate, in order, or all cities for an unknown key |
| `DashboardShowcase.FromPool` | frontend/src/pages/Dashboard.tsx:1455 | the number of pool cities shown is min(pool size, max(0, desiredCount)) |
| `DashboardShowcase.FilledImages` | frontend/src/pages/Dashboard.tsx:1469-1474 | a filled image list is never empty and an existing non-empty list is kept |
| `DashboardShowcase.FirstPosFirst` | frontend/src/pages/Dashboard.tsx:1469-1474 | the image slot of a shown city is its first position in the list, where the same city object is written |
| `DashboardShowcase.PushFallbacks` | frontend/src/pages/Dashboard.tsx:1456-1466 | fallbacks are appended after the pool cities, in order, until desiredCount is reached or they run out |
| `DashboardShowcase.FillImages` | frontend/src/pages/Dashboard.tsx:1469-1474 | every shown city without images gets the pool image of its first position written in place, and a city with images keeps them |
| `DashboardShowcase.PushPlaceholders` | frontend/src/pages/Dashboard.tsx:1475-1483 | "Discover Spot" placeholders with a pool image are appended until exactly desiredCount items are shown |
| `DashboardShowcase.CategoryShowcase` | frontend/src/pages/Dashboard.tsx:1418-1483 | the showcase has exactly max(0, desiredCount) items: the category pool in order, then the category fallbacks, then numbered placeholders; shown pool cities end with non-empty images and no other city is touched |
| `ItineraryBuild.DaysBetween` | frontend/src/pages/ItineraryBuild.tsx:117-120 | the day count is at least 1, is 1 for a span of at most one day, and otherwise is the number of started days, (d-1) days < span <= d days; the dashboard's daysBetween (Dashboard.tsx, lines 388-393) is the same function |
| `ItineraryBuild.ArrayMove` | frontend/src/pages/ItineraryBuild.tsx:421-428 | a move puts the dragged section at the target index and leaves the other sections in their order |
| `ItineraryBuild.ArrayMovePermutes` | frontend/src/pages/ItineraryBuild.tsx:421-428 | a move keeps the multiset of sections, and a move onto the same index changes nothing |
| `ItineraryBuild.JsArrayMove` | frontend/src/pages/ItineraryBuild.tsx:424-426 | arrayMove with findIndex results: -1 as source moves the last section to the target, -1 as target moves the source to the end, -1 for both changes nothing; the sections stay a permutation |
| `ItineraryBuild.DisplaySections` | frontend/src/pages/ItineraryBuild.tsx:430-440 | the displayed list is a permutation of the sections, sorted by start date (missing dates as 0) in timeline mode and the sections themselves otherwise |
| `ItineraryBuild.TotalBudget` | frontend/src/pages/ItineraryBuild.tsx:443 | the total budget is not negative while no section budget is |
| `ItineraryBuild.TotalDays` | frontend/src/pages/ItineraryBuild.tsx:444-447 | totalDays counts at least one day per section with both dates and is 0 when no section has both |
| `ItineraryBuild.TotalsAppend` | frontend/src/pages/ItineraryBuild.tsx:442-450 | budget, days and activity count are sums over the sections, additive over concatenation |
| `ItineraryBuild.FilteredSuggestions` | frontend/src/pages/ItineraryBuild.tsx:481-491 | none for a blank input; otherwise the first min(6, n) of the n activities whose lowercased name contains the trimmed, lowercased input and which are not chips yet, in list order |
| `ItineraryBuild.SuggestionsComplete` | frontend/src/pages/ItineraryBuild.tsx:481-491 | with at most six matches all are suggested in list order; a matching activity is left out only when six are shown |
| `ItineraryBuild.WithoutChip` | frontend/src/pages/ItineraryBuild.tsx:1018 | the X removes every chip with that id and keeps the other chips in order |
| `ItineraryBuild.ReplaceById` | frontend/src/pages/ItineraryBuild.tsx:550-552 | an edit replaces exactly the sections with the saved id and keeps the rest in place |
| `ItineraryBuild.ToggleExpanded` | frontend/src/pages/ItineraryBuild.tsx:574-576 | only the sections with the given id flip their expanded flag |
| `ItineraryBuild.ToggleExpandedTwice` | frontend/src/pages/ItineraryBuild.tsx:574-576 | expanding twice restores the section list |
| `ItineraryBuild.WithoutSection` | frontend/src/pages/ItineraryBuild.tsx:563-571 | delete removes every section with the id and keeps the others in order |
| `ItineraryBuild.AIBodies` | frontend/src/pages/ItineraryBuild.tsx:610-618 | one body per previewed section, in order, with the current trip id, budget 0 and the section's name, description, dates and activities |
| `ItineraryBuild.KeyStep` | frontend/src/pages/ItineraryBuild.tsx:493-507 | Enter with suggestions appends exactly one chip for a suggested activity not yet a chip and clears the input; Backspace on an empty input drops exactly the last chip; other keys change nothing |
| `ItineraryBuild.EnterStep` | frontend/src/pages/ItineraryBuild.tsx:493-500 | Enter appends the first suggestion as a chip and clears the input when there is a suggestion, and changes nothing otherwise; a blank input has no suggestions |
| `ItineraryBuild.Builder.OnDragEnd` | frontend/src/pages/ItineraryBuild.tsx:421-428 | a drop on a different target moves the section at the dragged id's index to the target's index, an id not found counting as the last section as arrayMove takes -1; a drop on itself changes nothing; the sections stay a permutation |
| `ItineraryBuild.Builder.SetInput` | frontend/src/pages/ItineraryBuild.tsx:985-988 | typing sets the input and opens the suggestions, leaving chips and sections alone |
| `ItineraryBuild.Builder.AddChip` | frontend/src/pages/ItineraryBuild.tsx:493-497 | adding appends exactly one chip, clears the input and closes the suggestions |
| `ItineraryBuild.Builder.KeyDown` | frontend/src/pages/ItineraryBuild.tsx:492-507 | chips and input become the key step's result; the suggestion list closes exactly when Enter takes a suggestion; the sections are untouched |
| `ItineraryBuild.Builder.RemoveChip` | frontend/src/pages/ItineraryBuild.tsx:1018 | the chips become those without the id |
| `ItineraryBuild.Builder.SaveSection` | frontend/src/pages/ItineraryBuild.tsx:509-561 | with no trip id or an empty one, or a missing name, description, start or end, nothing is sent and nothing changes; otherwise the body carries the form and chip ids, and a saved edit replaces the same-id section while a saved create is appended and the modal closes |
| `ItineraryBuild.Builder.DeleteSection` | frontend/src/pages/ItineraryBuild.tsx:563-572 | a confirmed, successful delete with an id removes that id's sections; anything else changes nothing |
| `ItineraryBuild.Builder.ToggleExpand` | frontend/src/pages/ItineraryBuild.tsx:574-576 | the sections become the toggled list |
| `CommunityPage.SortedPosts` | frontend/src/pages/Community.tsx:66 | the loaded posts are a permutation of the fetched ones, newest first, a missing date counting as the epoch |
| `CommunityPage.AddFiles` | frontend/src/pages/Community.tsx:100-104 | never more than six files, the earliest kept: the old files then the chosen ones, cut at six |
| `CommunityPage.DropIndex` | frontend/src/pages/Community.tsx:106-109 | exactly the element at idx is dropped, the others keep their order; an index outside the list drops nothing |
| `CommunityPage.ToggleLikes` | frontend/src/pages/Community.tsx:149-158 | the posts with the id get the user toggled in their likes (every occurrence removed if present, else appended); other posts are unchanged |
| `CommunityPage.LikeRollback` | frontend/src/pages/Community.tsx:165-173 | applying the toggle again after a failed request gives every post back its set of likers, and its exact list when the user had not liked it |
| `CommunityPage.WithComment` | frontend/src/pages/Community.tsx:185 | the temporary comment is appended to the posts with the id only |
| `CommunityPage.WithComments` | frontend/src/pages/Community.tsx:190-193 | on success the server's list replaces the comments of the posts with the id only |
| `CommunityPage.WithoutTemp` | frontend/src/pages/Community.tsx:195-198 | on failure every "tmp-" comment of the posts with the id is dropped, other posts unchanged |
| `CommunityPage.CommentRollback` | frontend/src/pages/Community.tsx:177-198 | appending a temporary comment and rolling it back restores the posts when none of that post's comments was temporary before |
| `CommunityPage.WithoutComment` | frontend/src/pages/Community.tsx:216-225 | deleteComment leaves every other post unchanged and, in the posts with the post id, removes every comment with the comment id and keeps all other comments |
| `CommunityPage.WithoutPost` | frontend/src/pages/Community.tsx:204-213 | deletePost removes every post with the id and keeps the others in order |
| `CommunityPage.Page.Loaded` | frontend/src/pages/Community.tsx:58-67 | a successful fetch sets the posts to the sorted list and nothing else |
| `CommunityPage.Page.OpenModal` | frontend/src/pages/Community.tsx:90-96 | opening the modal clears title, content, files and previews |
| `CommunityPage.Page.HandleFiles` | frontend/src/pages/Community.tsx:100-104 | the files become the capped concatenation and stay at most six |
| `CommunityPage.Page.SetPreviews` | frontend/src/pages/Community.tsx:81-88 | the previews become one URL per file |
| `CommunityPage.Page.RemovePreview` | frontend/src/pages/Community.tsx:106-109 | the same index is dropped from files and previews |
| `CommunityPage.PostPayload` | frontend/src/pages/Community.tsx:113-134 | nothing is sent exactly when title and content trim to empty and there is no file; otherwise the trimmed title and content, and the uploaded URLs only when there are files |
| `CommunityPage.Page.CreatePost` | frontend/src/pages/Community.tsx:112-145 | the payload sent is the one above; a created post is prepended and the modal closed only when something was sent; a stopped or failed post changes nothing |
| `CommunityPage.Page.Created` | frontend/src/pages/Community.tsx:137-139 | the server's post goes first, the modal closes, the form is untouched |
| `CommunityPage.Page.ToggleLike` | frontend/src/pages/Community.tsx:149-158 | the optimistic toggle with the current user id, "" when there is no user |
| `CommunityPage.Page.SubmitComment` | frontend/src/pages/Community.tsx:177-187 | blank text is ignored; otherwise one "tmp-" comment is appended to that post and only that post's input is cleared |
| `CommunityPage.Page.CommentReply` | frontend/src/pages/Community.tsx:189-199 | success installs the server's comments, failure drops that post's temporary comments |
| `CommunityPage.Page.DeletePost` | frontend/src/pages/Community.tsx:204-213 | a confirmed, successful delete removes the posts with the id; anything else changes nothing |
| `CommunityPage.Page.DeleteComment` | frontend/src/pages/Community.tsx:216-225 | a confirmed, successful delete removes the comment from that post; anything else changes nothing |
| `ItineraryView.DayBadge` | frontend/src/pages/ItineraryView.tsx:29-34 | Adventure iff some activity has type "activity"; Foodie iff none has but some has type "food"; Culture otherwise |
| `ItineraryView.DayTotal` | frontend/src/pages/ItineraryView.tsx:220-229 | a day's total is the sum of its four budget buckets |
| `ItineraryView.Ticks` | frontend/src/pages/ItineraryView.tsx:232-236 | any number of autoplay ticks from a valid day index stays a valid day index |
| `ItineraryView.BucketsSumToCosts` | frontend/src/pages/ItineraryView.tsx:220-229 | the four buckets of a day together hold exactly the day's total cost |
| `ItineraryView.SingleKindDay` | frontend/src/pages/ItineraryView.tsx:220-227 | when every activity falls in one bucket, that bucket holds the whole day |
| `ItineraryView.CostsAppend` | frontend/src/pages/ItineraryView.tsx:229 | the day total is additive over concatenated activity lists |
| `ItineraryView.GrandTotal` | frontend/src/pages/ItineraryView.tsx:229-230 | the grand total is the sum of the day totals, i.e. the cost of every activity of the trip |
| `ItineraryView.BudgetBreakdown` | frontend/src/pages/ItineraryView.tsx:220-227 | the breakdown has exactly the keys activity, stay, food and other, each holding the cost charged to it (a missing type to other), summing to the day total; with no active day all four are 0 |
| `ItineraryView.NextDay` | frontend/src/pages/ItineraryView.tsx:251 | next moves one day on and never past the last day |
| `ItineraryView.PrevDay` | frontend/src/pages/ItineraryView.tsx:252 | prev moves one day back and never below 0 |
| `ItineraryView.AutoAdvance` | frontend/src/pages/ItineraryView.tsx:235 | an autoplay tick advances by one and wraps from the last day to 0 |
| `ItineraryView.TicksAreModulo` | frontend/src/pages/ItineraryView.tsx:232-236 | k autoplay ticks from day i land on (i + k) mod n, so n ticks come back |
| `ItineraryView.WithoutPopup` | frontend/src/pages/ItineraryView.tsx:255-260 | closing removes every popup with the id and keeps the others in order |
| `ItineraryView.ShowThenClose` | frontend/src/pages/ItineraryView.tsx:255-260 | showing a popup with a fresh id and closing it restores the list |
| `ItineraryView.Viewer.Next` | frontend/src/pages/ItineraryView.tsx:251 | the active index becomes next's and stays a valid day |
| `ItineraryView.Viewer.Prev` | frontend/src/pages/ItineraryView.tsx:252 | the active index becomes prev's and stays a valid day |
| `ItineraryView.Viewer.SelectDay` | frontend/src/pages/ItineraryView.tsx:356 | a day button selects that day and stops autoplay |
| `ItineraryView.Viewer.Restart` | frontend/src/pages/ItineraryView.tsx:512 | restart returns to day 0 and stops autoplay |
| `ItineraryView.Viewer.TogglePlay` | frontend/src/pages/ItineraryView.tsx:323 | the play button flips autoplay only |
| `ItineraryView.Viewer.Tick` | frontend/src/pages/ItineraryView.tsx:232-236 | an interval tick while playing advances with wrap-around and keeps the index valid |
| `ItineraryView.Viewer.ShowPopup` | frontend/src/pages/ItineraryView.tsx:255-256 | a shown popup is appended |
| `ItineraryView.Viewer.ClosePopup` | frontend/src/pages/ItineraryView.tsx:257-260 | the popups become those without the id |
| `AnalyticsService.Sample` | frontend/src/services/api/analytics.ts:64-68 | sampling every k-th point keeps exactly the points at indices 0, k, 2k, ..., in order, ceil(n/k) of them |
| `AnalyticsService.SampleKeepsMultiples` | frontend/src/services/api/analytics.ts:64-68 | every point at an index divisible by k is kept, at position index / k |
| `AnalyticsService.FetchAnalytics` | frontend/src/services/api/analytics.ts:48-70 | only tripsSeries can differ from the source; it is date-filtered when either bound is given, then sampled every second point for week and every third for month, and kept whole for day or none |
| `AnalyticsService.DateFilterSpec` | frontend/src/services/api/analytics.ts:54-61 | every kept point has a date within the given bounds (a missing bound unbounded), and filtering only removes points, keeping their order |
| `AnalyticsService.UnparsedBoundEmpties` | frontend/src/services/api/analytics.ts:55-60 | a bound that does not parse compares false with everything, so no point is kept |
| `AnalyticsPage.CsvLines` | frontend/src/pages/Admin/Analytics.tsx:51-53 | one data line per top activity, in order, its fields id, title, city, uses and avg_cost joined by "," |
| `AnalyticsPage.Csv` | frontend/src/pages/Admin/Analytics.tsx:50-53 | the CSV starts with the header line "ID,Title,City,Uses,Avg Cost" and is only that line when there are no top activities |
| `AnalyticsPage.NumberHasNoSeparator` | frontend/src/pages/Admin/Analytics.tsx:51 | a number written into the CSV holds no comma and no line break |
| `AnalyticsPage.CsvHasOneLinePerActivity` | frontend/src/pages/Admin/Analytics.tsx:50-53 | the CSV splits into exactly 1 + n lines, the header "ID,Title,City,Uses,Avg Cost" then the activity lines in order, when no title or city holds a line break |
| `AnalyticsPage.LineHasNoNewline` | frontend/src/pages/Admin/Analytics.tsx:51-53 | a data line holds no line break when its title and city hold none |
| `AnalyticsPage.JoinHasNo` | frontend/src/pages/Admin/Analytics.tsx:53 | joining adds no character other than the separator |
| `AnalyticsPage.LineFields` | frontend/src/pages/Admin/Analytics.tsx:51-53 | a data line splits back into its five fields in order when title and city hold no comma |
| `AnalyticsPage.JoinPieces` | frontend/src/pages/Admin/Analytics.tsx:53 | a part that contains the separator joins to the same text as its two pieces |
| `AnalyticsPage.CommaInTitleAddsField` | frontend/src/pages/Admin/Analytics.tsx:50-53 | fields are not quoted (unlike section 2 of RFC 4180), so one comma in a title makes the line split into six fields |
| `AnalyticsPage.AnalyticsState.constructor` | frontend/src/pages/Admin/Analytics.tsx:16-21 | the range starts as the last seven days ending now, granularity day, no data and no error |
| `AnalyticsPage.AnalyticsState.OnQuick` | frontend/src/pages/Admin/Analytics.tsx:41-46 | to becomes now and from now - (d-1) x 86 400 000 ms; nothing else changes |
| `AnalyticsPage.AnalyticsState.Loaded` | frontend/src/pages/Admin/Analytics.tsx:23-33 | a result replaces the data and clears the error; a failure keeps the old data and sets "Failed to load analytics" |
| `AnalyticsPage.AnalyticsState.ExportCsv` | frontend/src/pages/Admin/Analytics.tsx:48-53 | export yields nothing exactly when no data is loaded, else the CSV of the top activities |
| `AnalyticsTable.FilteredRows` | frontend/src/components/admin/AnalyticsTable.tsx:26-31 | a row is kept exactly when its lowercased title or city contains the lowercased search term |
| `AnalyticsTable.EmptyTermKeepsAll` | frontend/src/components/admin/AnalyticsTable.tsx:26-31 | an empty search keeps every row in order |
| `AnalyticsTable.FilterKeepsOrder` | frontend/src/components/admin/AnalyticsTable.tsx:26-31 | the filtered rows keep the input order |
| `AnalyticsTable.TotalPages` | frontend/src/components/admin/AnalyticsTable.tsx:33 | totalPages is ceil(n/5): (p-1) x 5 < n <= p x 5 |
| `AnalyticsTable.Slice` | frontend/src/components/admin/AnalyticsTable.tsx:36 | slice returns the elements from start up to end, clipped to the list |
| `AnalyticsTable.PageRows` | frontend/src/components/admin/AnalyticsTable.tsx:34-36 | page p shows at most five rows, filtered[(p-1) x 5 ..], non-empty for an existing page and empty past the last |
| `AnalyticsTable.RankIsPosition` | frontend/src/components/admin/AnalyticsTable.tsx:87 | the shown rank is the row's position in the filtered list plus one |
| `AnalyticsTable.PagesCoverFiltered` | frontend/src/components/admin/AnalyticsTable.tsx:33-36 | every filtered row appears on page k/5 + 1, which exists |
| `AnalyticsTable.ShowingLine` | frontend/src/components/admin/AnalyticsTable.tsx:116 | "Showing a to b of n" has a = start + 1 and b = min(end, n), and b - a + 1 is the number of rows shown |
| `AnalyticsTable.RoundDiv` | frontend/src/components/admin/AnalyticsTable.tsx:168 | Math.round of x/n, halves rounding up |
| `AnalyticsTable.SummaryOf` | frontend/src/components/admin/AnalyticsTable.tsx:155-171 | the summary counts and sums the unfiltered rows; the average is undefined exactly when there are none, and otherwise the total cost over the row count rounded half up |
| `AnalyticsTable.TableState.SetSearchTerm` | frontend/src/components/admin/AnalyticsTable.tsx:22-54 | a new term does not reset the page, so a page past the end of the new list shows no rows |
| `AnalyticsTable.TableState.PreviousPage` | frontend/src/components/admin/AnalyticsTable.tsx:122-123 | previous goes one page back and is disabled on page 1 |
| `AnalyticsTable.TableState.NextPage` | frontend/src/components/admin/AnalyticsTable.tsx:143-144 | next goes one page on and is disabled on the last page |
| `AnalyticsTable.TableState.SelectPage` | frontend/src/components/admin/AnalyticsTable.tsx:129-134 | a numbered button selects an existing page, which shows rows |
| `MyTrips.FilteredTrips` | frontend/src/pages/User/MyTrips.tsx:73-85 | every listed trip is in the data, has the active tab's status and a lowercased name containing the lowercased search; every such trip is listed; the list is a reordering of them sorted by date or by name |
| `MyTrips.EmptySearchKeepsTab` | frontend/src/pages/User/MyTrips.tsx:77 | an empty search lists the whole tab |
| `Calendar.DurationDays` | frontend/src/pages/Calendar.tsx:28-35 | the day count is the started days between the dates plus one: (d-2) days < end - start <= (d-1) days |
| `Calendar.ToEvent` | frontend/src/pages/Calendar.tsx:23-39 | an event spans its trip's dates and is all-day; a missing title becomes "Trip", a falsy budget (0 included) "N/A", a missing status "upcoming", and a missing duration the computed day count followed by " days" |
| `Calendar.ToEvents` | frontend/src/pages/Calendar.tsx:23 | one event per fetched trip, in the same order, each that trip's event |
| `Calendar.EventsFollowTrips` | frontend/src/pages/Calendar.tsx:23 | one all-day event per fetched trip, in the same order, each the event of that trip and spanning its dates |
| `Calendar.SameDayIsOneDay` | frontend/src/pages/Calendar.tsx:28-35 | a same-day trip shows "1 days" and one ending a day later "2 days" |
| `Calendar.EventColor` | frontend/src/pages/Calendar.tsx:50-54 | a colour is given exactly to past, ongoing and upcoming |
| `Calendar.ColorsOfStatuses` | frontend/src/pages/Calendar.tsx:37-54 | the three colours differ, the trip model's "completed" gets none, and an event without a status is coloured as upcoming |
| `StatsTab.TotalBudget` | frontend/src/components/Profile/StatsTab.tsx:12 | the total is 0 with no trips or no budgets, and non-negative when every budget is |
| `StatsTab.AverageBudget` | frontend/src/components/Profile/StatsTab.tsx:13 | the average is 0 with no trips, and average x n = total with n > 0 trips |
| `StatsTab.TotalBudgetAppend` | frontend/src/components/Profile/StatsTab.tsx:12 | the total is additive over concatenated trip lists, a missing budget adding nothing |
| `StatsTab.UniformAverage` | frontend/src/components/Profile/StatsTab.tsx:12-13 | when every trip has budget b the average is b |
| `StatsTab.UniformTotal` | frontend/src/components/Profile/StatsTab.tsx:12 | n trips of budget b total n x b |
| `Typewriter.Text` | frontend/src/components/ui/typewriter.tsx:73 | the shown text is a prefix of the current word, subIndex characters long while the cursor is inside the word |
| `Typewriter.Step` | frontend/src/components/ui/typewriter.tsx:41-71 | every step keeps the index in range and 0 <= subIndex <= the current word's length; an empty word makes no step; a change of word moves to the next index modulo the word count with subIndex 0, typing |
| `Typewriter.StepMovesByOne` | frontend/src/components/ui/typewriter.tsx:45-71 | typing adds one character and deleting removes one; a fully typed word only sets deleting; a change of word resets subIndex to 0 and deleting to false |
| `Typewriter.TypesToEnd` | frontend/src/components/ui/typewriter.tsx:61-63 | typing reaches the end of the word after exactly the remaining characters' steps |
| `Typewriter.DeletesToStart` | frontend/src/components/ui/typewriter.tsx:61-63 | deleting reaches 0 after exactly subIndex steps |
| `Typewriter.StepsAdd` | frontend/src/components/ui/typewriter.tsx:41-71 | j steps then k steps are j + k steps |
| `Typewriter.WordCycle` | frontend/src/components/ui/typewriter.tsx:41-71 | a word of length L is typed, held, deleted and left in exactly 2L + 2 steps, landing on word (i+1) mod n with the cursor at 0 |
| `Typewriter.StopsAfterLastWord` | frontend/src/components/ui/typewriter.tsx:53-57 | with loop off, the deleted last word stays put forever |
| `Typewriter.StepsStay` | frontend/src/components/ui/typewriter.tsx:25-56 | a state that a step leaves unchanged stays unchanged under any number of steps |
| `Typewriter.TypewriterState.Shown` | frontend/src/components/ui/typewriter.tsx:73 | the rendered text is a prefix of the current word |
| `Typewriter.TypewriterState.Tick` | frontend/src/components/ui/typewriter.tsx:41-71 | one timer firing moves the state exactly as the step function does (nothing for an empty word) |
| `Testimonials.NextIndex` | frontend/src/components/landing/TestimonialsSection.tsx:35-37 | next stays within [0, n), moves one on and wraps from n-1 to 0 |
| `Testimonials.PrevIndex` | frontend/src/components/landing/TestimonialsSection.tsx:39-41 | prev stays within [0, n), moves one back and wraps from 0 to n-1 |
| `Testimonials.PrevUndoesNext` | frontend/src/components/landing/TestimonialsSection.tsx:35-41 | prev undoes next and next undoes prev |
| `Testimonials.Advance` | frontend/src/components/landing/TestimonialsSection.tsx:35-37 | k next calls stay within [0, n) |
| `Testimonials.AdvanceIsModulo` | frontend/src/components/landing/TestimonialsSection.tsx:35-37 | k next calls from i land on (i + k) mod n |
| `Testimonials.FullCycle` | frontend/src/components/landing/TestimonialsSection.tsx:35-37 | n successive next calls return to the starting index |
| `Testimonials.Slider.Next` | frontend/src/components/landing/TestimonialsSection.tsx:35-37 | the index becomes next's and stays within the three testimonials |
| `Testimonials.Slider.Prev` | frontend/src/components/landing/TestimonialsSection.tsx:39-41 | the index becomes prev's and stays within the three testimonials |
| `Testimonials.Slider.Select` | frontend/src/components/landing/TestimonialsSection.tsx:106 | a dot selects its testimonial |
| `Header.FirstCharsSpec` | frontend/src/components/mvpblocks/header-1.tsx:76-78 | the joined first characters hold one character per non-empty part, its first, in order; an empty part contributes nothing |
| `Header.Initials` | frontend/src/components/mvpblocks/header-1.tsx:74-81 | the initials are at most two characters, and "GT" for a null or empty name |
| `Header.InitialsOfName` | frontend/src/components/mvpblocks/header-1.tsx:74-81 | for a non-empty name the initials are the uppercased first letters of the first two (or fewer) non-empty space-separated parts |
| `Header.OnlySpacesGiveEmpty` | frontend/src/components/mvpblocks/header-1.tsx:75-80 | a name of spaces only gives "", not "GT" |
| `Header.SpacesSplitEmpty` | frontend/src/components/mvpblocks/header-1.tsx:76 | splitting spaces on " " gives only empty parts |
| `Header.DataScroll` | frontend/src/components/mvpblocks/header-1.tsx:96 | data-scroll is floor(y/10) x 10 capped at 80: at most 80 and y, a multiple of 10 in [0, 80] for y >= 0, and within 10 of y below the cap |
| `Header.HeaderClassFor` | frontend/src/components/mvpblocks/header-1.tsx:109-115 | the scrolled class iff scrolled; transparent iff not scrolled on the landing page; the default otherwise |
| `Header.HeaderState.OnScroll` | frontend/src/components/mvpblocks/header-1.tsx:49-52 | scrolled becomes y > 20 and the menus are untouched |
| `Header.HeaderState.ToggleUserMenu` | frontend/src/components/mvpblocks/header-1.tsx:166 | the avatar flips the user menu only |
| `Header.HeaderState.ToggleMobileMenu` | frontend/src/components/mvpblocks/header-1.tsx:222 | the burger flips the mobile menu only |
| `Header.HeaderState.CloseUserMenu` | frontend/src/components/mvpblocks/header-1.tsx:184-188 | a user-menu link closes the user menu only |
| `Header.HeaderState.CloseMobileMenu` | frontend/src/components/mvpblocks/header-1.tsx:250-319 | a mobile-menu link closes the mobile menu only |
| `Header.HeaderState.LogoutFinished` | frontend/src/components/mvpblocks/header-1.tsx:55-71 | a successful logout closes the user menu; a failed one leaves it as it was |
| `Navbar.Initials` | frontend/src/components/Navbar.tsx:20-27 | a null or empty name gives "US"; for a non-empty name the initials have exactly one uppercased character per non-empty part, in order, with no length cap |
| `Navbar.HeaderInitialsArePrefix` | frontend/src/components/Navbar.tsx:20-27 | the header's two-letter initials are a prefix of the navbar's |
| `Navbar.NavbarState.ToggleUserMenu` | frontend/src/components/Navbar.tsx:78 | the avatar button flips the user menu only |
| `Navbar.NavbarState.ToggleMenu` | frontend/src/components/Navbar.tsx:131 | the menu button flips the mobile menu only |
| `Navbar.NavbarState.ChooseUserMenuEntry` | frontend/src/components/Navbar.tsx:96-111 | any user-menu entry closes the user menu, and Logout then requests the logout |
| `Navbar.NavbarState.ChooseMenuLink` | frontend/src/components/Navbar.tsx:147-154 | a mobile-menu link closes the mobile menu only |
| `Footer.FirstFrom` | frontend/src/components/mvpblocks/footer-4col.tsx:38 | the scan finds the first index at or after k holding the character, or reports that none does |
| `Footer.LastBefore` | frontend/src/components/mvpblocks/footer-4col.tsx:38 | the scan finds the last index before k holding the character, or reports that none does |
| `Footer.NoSpace` | frontend/src/components/mvpblocks/footer-4col.tsx:38 | true exactly when no character is white space |
| `Footer.AcceptsEmailIff` | frontend/src/components/mvpblocks/footer-4col.tsx:38 | an email is accepted iff it has no white space and splits as a@b.c with a, b and c non-empty (the regular expression's rule, not RFC 5322) |
| `Footer.PiecesAccepted` | frontend/src/components/mvpblocks/footer-4col.tsx:38 | any three non-empty pieces without white space joined as local@domain.tld are accepted, even when they hold further '@' or '.' |
| `Footer.MissingSeparatorRejected` | frontend/src/components/mvpblocks/footer-4col.tsx:38 | a text with no '@' after its first character, or no '.' before its last, is rejected |
| `Footer.Newsletter.SetEmail` | frontend/src/components/mvpblocks/footer-4col.tsx:191 | typing sets the email only |
| `Footer.Newsletter.Subscribe` | frontend/src/components/mvpblocks/footer-4col.tsx:35-48 | the error is cleared first; an invalid email sets "Please enter a valid email address." and leaves subscribed alone; a valid one subscribes with no error; subscribed never returns to false |
| `Sorting.Sort` | frontend/src/pages/ItineraryBuild.tsx:432-438 | the sort used for every JavaScript `Array.prototype.sort` call of the model returns a permutation of its input |
| `Sorting.SortSorted` | frontend/src/pages/ItineraryBuild.tsx:432-438 | for an order total on the list, the sort's result is ordered by it |
| `Sorting.SortStable` | frontend/src/pages/ItineraryBuild.tsx:432-438 | the sort is stable: elements of a class that are all "not after" one another come out in their input order |
| `Sorting.SortByKeyStable` | frontend/src/pages/ItineraryBuild.tsx:432-438 | under a key comparator `key(a) - key(b)`, the elements with any one key value keep their input order |
| `Collections.DistinctSpec` | frontend/src/pages/Dashboard.tsx:660-661 | a Set built from a list holds every element once, and exactly the list's elements |
| `DashboardShowcase.FilledCards` | frontend/src/pages/Dashboard.tsx:1455-1474 | the pool's first cities, then the fallbacks while short, with every pool city's images filled in place and no other city touched |
| `DashboardShowcase.Showcase` | frontend/src/pages/Dashboard.tsx:1455-1483 | for a pool and spots with images, exactly max(0, desiredCount) cards: pool cities, then spots, then placeholders, the pool cities' images filled and no other city touched |
| `ItineraryBuild.Builder.constructor` | frontend/src/pages/ItineraryBuild.tsx:320-347 | the builder starts with the loaded sections and activities, the modal closed, no section being edited, no chips and an empty input |
| `CommunityPage.Page.constructor` | frontend/src/pages/Community.tsx:38-51 | the page starts with no posts, the modal closed, an empty form and no comment inputs |
| `ItineraryView.Viewer.constructor` | frontend/src/pages/ItineraryView.tsx:211-214 | the viewer starts on day 0, not playing, with no popups |
| `AnalyticsTable.TableState.constructor` | frontend/src/components/admin/AnalyticsTable.tsx:22-23 | the table starts with an empty search on page 1 |
| `Typewriter.TypewriterState.constructor` | frontend/src/components/ui/typewriter.tsx:20-22 | the typewriter starts on word 0 at subIndex 0, typing |
| `Testimonials.Slider.constructor` | frontend/src/components/landing/TestimonialsSection.tsx:32 | the slider starts on the first testimonial |
| `Header.HeaderState.constructor` | frontend/src/components/mvpblocks/header-1.tsx:35-37 | the header starts unscrolled with both menus closed |
| `Navbar.NavbarState.constructor` | frontend/src/components/Navbar.tsx:13-14 | the navbar starts with both menus closed |
| `Footer.Newsletter.constructor` | frontend/src/components/mvpblocks/footer-4col.tsx:29-31 | the form starts with an empty email, not subscribed and no error |
| `ItineraryBuild.ActivityName` | frontend/src/pages/ItineraryBuild.tsx:411-417 | a chip's name is never empty, and is "Unknown" when no activity has the id |
| `ItineraryBuild.ActivityNameIsLast` | frontend/src/pages/ItineraryBuild.tsx:411-417 | the name is that of the last activity with the id (later `Map.set` calls win), or "Unknown" when that name is empty |
| `ItineraryBuild.ChipsFor` | frontend/src/pages/ItineraryBuild.tsx:471-473 | one chip per activity reference of the edited section, in order, named by the lookup |
| `ItineraryBuild.Builder.OpenModalForAdd` | frontend/src/pages/ItineraryBuild.tsx:452-465 | the add form opens with no section being edited, "title - Section" (or "New Section"), the trip's description and dates when a trip is loaded, budget 0, no chips and an empty input |
| `ItineraryBuild.Builder.OpenModalForEdit` | frontend/src/pages/ItineraryBuild.tsx:467-478 | the edit form opens on the section, with its fields and its activities as named chips |
| `ItineraryBuild.Builder.AIGenerated` | frontend/src/pages/ItineraryBuild.tsx:592-596 | a reply sets the preview to its sections, or to none when it has no list; a failure leaves the preview as it was |
| `ItineraryBuild.Builder.SaveAIPreview` | frontend/src/pages/ItineraryBuild.tsx:602-641 | with no trip id or an empty one, or an empty preview, nothing is posted; otherwise the mapped bodies are posted, and after a successful refresh the sections are the server's list, the page returns to manual mode and the preview is cleared; a failure changes nothing |

## Left out
- python/services/openai_service.py: the OpenAI call is a function parameter of the chatbot service; its parsing and validation happen inside the library.
- python/services/itinerary_service.py, python/services/activity_service.py, python/api/*.py and python/main.py are transport glue; activity_service imports an `activities_prompt` that python/utils/prompts.py does not define, and the activities router is never mounted.
- Floating point: pydantic `float` fields, costs and budgets are integers; the dashboard's random coordinates, map centre and per-trip budget estimate (a parameter of `Dashboard.Highlights`), the ImagePlaceholder hash, the analytics sparkline and chart percentages, and the profile page's fixed 12000 divided by a trip count are not modelled. `StatsTab.AverageBudget` keeps its average as a real.
- Locale formatting (`toLocaleString`, date-fns, Intl) is not modelled; every date is integer milliseconds, and the ISO strings the analytics page stores are its millisecond values.
- AnalyticsPage.AnalyticsState.OnQuick: the source reads the clock twice (for the end and for the start); the model reads it once, as the `now` parameter, so both bounds come from the same instant.
- Timers, debounce and localStorage are not modelled: the typewriter timeout, the viewer's autoplay interval and the 5 s popup removal are the state transitions they trigger (`Typewriter.Step`, `ItineraryView.Viewer.Next`, `ItineraryView.Viewer.ClosePopup`), not their timing.
- The socket.io registry and the chat clients (Chat.tsx, ChatBubble.tsx) are event-driven network code and are not modelled.
- Mongoose, bcrypt, JWT signing and verification, random bytes, nodemailer, Google's token check, Cloudinary and multer are foreign: their results are parameters, collections are sequences in insertion order, and HMAC-SHA256 is a function parameter.
- The middleware that sets `req.user` is not part of this model; each handler takes the identity it reads as a parameter.
- The thin CRUD controllers (city, activity, section, user) and the route files are wiring around one database call each; searchRoutes and paymentRoutes are not mounted by backend/index.js, so their handlers are modelled as functions only.
- Presentation-only components (landing sections, heroes, tilt, reveal, tabs, badges, layouts, routers, admin CRUD forms, auth and reset forms, whose validation zod does) and the commented-out code in CreateTrip.tsx and LoginForm.tsx are not modelled.
- Case mapping is ASCII only, and `localeCompare` is code-unit order: the model has no Unicode tables or collation.
- The seven-day window of the dashboard is 7 × 24 hours of milliseconds; daylight-saving shifts are not modelled.
- The dashboard's trip pagination and next-trip countdown are display logic and are not modelled.
- ItineraryBuild.Builder.AIGenerated: the form guard and the request payload of `generateAI` are not modelled, only what the reply does to the builder.
- ItineraryBuild: the section budget is the number its text gives under `Number()`; the text field itself and a text that is not a number are not modelled.
- Header scroll positions are whole pixels; fractional `scrollY` values are not modelled.
- The schema mismatches are left as found: the Python Section has no dates and holds full activities, the backend Section requires dates and stores activity ids, the frontend reads `start_date`/`end_date` per section, and the backend schemas are checked only where a modelled handler writes a document (`AuthController.CreateUser`, `TripController.StopCasts`, the userId of `CommunityController.PostStore.CreatePost`).
- The showcase's bundled images are named by their file names, not by the imported asset URLs.
- Calendar: a trip date that does not parse (an Invalid Date) is not modelled; dates are given as milliseconds.
- Ids from the URL path are compared as text: a path id that is not a valid ObjectId makes Mongoose throw a CastError, which the trip and community handlers answer with 500; the model treats it as an id that matches no document (404).
- ItineraryBuild.Builder.OnDragEnd: on an empty section list the source's `arrayMove` would insert one `undefined` entry; the model leaves the empty list unchanged.
- Json.LaxNumber: of pydantic's numeric texts only optionally signed decimal integers are modelled; fractions, exponents, surrounding whitespace, underscores, "inf" and "nan" are not.
