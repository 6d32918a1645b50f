# RoboFriends directory: a Dafny model

This project models the logic of the RoboFriends directory application: a
browser front end that shows a searchable grid of robot profiles and lets the
user add one through a form, and an HTTP service that lists, checks and
creates robot records in a document store.

Three pieces of the program are modelled, each as one module, with the
network, the store and the rendering replaced by inputs:

- **The list view** (`AppView`, from `src/App.js`). The in-memory list
  `robot`, the search text `searched` and the case-insensitive substring
  filter `filteredRobots`. `App.HandleAddRobot` appends a created robot. The
  filter is a function (`Filter`). Lemmas prove exact membership, order
  preservation, an empty search showing everything, ignoring case,
  idempotence, and how appending affects the filtered list.
- **The add-robot form** (`Modals`, from `src/components/modal/Modals.jsx`).
  The class `AddRobotModal` holds the `user` fields, `selectedOptionKey`,
  `generatedImageUrl` and `isLoading`. Its methods are field edit, style
  select, Generate, Add and Close. `HandleAdd` works step by step and is
  proved against the pure transition `AddStep`. The two HTTP replies are
  inputs: `Reply = NoReply | Got(Response)`, where a non-JSON body is
  `Payload.Text`. Each Add click reports the prompt shown and the requests
  sent, in order.
- **The service** (`Server`, from `server/server.js`). The create handler
  `PostRobot` validates, saves to a `Store` and maps the outcome to 201, 400
  or 500. The list and check-phone handlers are functions of the stored
  records and a "store unreachable" flag.

`EndToEnd` connects the form to the service. Every create request the form
can send lacks `styleType`, so the service answers it with 400 "Please enter
all fields", and an Add click against the service as written never adds a
robot. `TextUtil` holds JavaScript's `toLowerCase` (ASCII letters),
`includes` and `trim` (the full ECMAScript white-space set). `Api` holds the
record, request and response types, and `Wrappers` the Option and Result
types.

The store model: `models/Robot` is not part of this model, so its schema is
an assumption here. The model assumes a unique index on username, email and
phone: a save that would repeat any of them fails with code 11000, which is
the case the create handler's catch block singles out. Any other store
failure is the `fault` input of `Store.Save` and `PostRobot`.

## Model

| member | source | states |
|---|---|---|
| `TextUtil.ToLower` | src/App.js:31 | lower-casing keeps the length and maps each character through ASCII `toLowerCase` |
| `TextUtil.ToLowerIdempotent` | src/App.js:31 | lower-casing an already lower-cased text changes nothing |
| `TextUtil.Contains` | src/App.js:31 | `includes`: the empty text occurs in every name, and a text longer than the name never occurs |
| `TextUtil.ContainsIff` | src/App.js:31 | `includes` holds exactly when the search text occurs at some position of the name |
| `TextUtil.Trim` | src/components/modal/Modals.jsx:47 | `trim` gives the empty string exactly when the input is all white space |
| `TextUtil.TrimIsSlice` | src/components/modal/Modals.jsx:47 | `trim` keeps a contiguous slice with only white space around it, and the slice neither starts nor ends with white space |
| `TextUtil.TrimJoinedBlank` | src/components/modal/Modals.jsx:47 | the name `first + " " + last` trims to empty exactly when both parts are white space |
| `AppView.Matches` | src/App.js:31 | the filter test: an empty search matches every robot, and a search longer than the name matches none |
| `AppView.Filter` | src/App.js:30-32 | `filteredRobots`: never longer than the list, and every robot it keeps matches |
| `AppView.FilterMembership` | src/App.js:30-32 | a robot is shown iff it is in the list and its lower-cased name contains the lower-cased search text |
| `AppView.MatchesIff` | src/App.js:31 | the filter test holds iff the lower-cased search occurs at some index of the lower-cased name |
| `AppView.FilterIsSubsequence` | src/App.js:30-32 | the filtered list is an order-preserving subsequence of the list |
| `AppView.FilterEmptySearch` | src/App.js:30-32 | an empty search shows the whole list |
| `AppView.FilterIgnoresSearchCase` | src/App.js:31 | two search texts that lower-case alike give the same result |
| `AppView.FilterLoweredSearch` | src/App.js:31 | searching for the lower-cased text equals searching for the text |
| `AppView.FilterAliExample` | src/App.js:31 | "ALI" and "ali" show the same robots |
| `AppView.FilterIdempotent` | src/App.js:30-32 | filtering the filtered list with the same text changes nothing |
| `AppView.FilterAppend` | src/App.js:26-32 | after an append, the filtered list is the old one plus the new robot if it matches |
| `AppView.FilterExample` | src/App.js:30-32 | names "Alice", "Bob", "alicia" searched with "ali" leave "Alice" and "alicia", in that order |
| `AppView.App.constructor` | src/App.js:11-13 | the view starts with an empty list, empty search and hidden modal |
| `AppView.App.FilteredRobots` | src/App.js:30-32 | the grid shows only robots that match the current search, and the whole list for an empty search |
| `AppView.App.HandleChange` | src/App.js:22-24 | the search text becomes the typed value; the list is unchanged |
| `AppView.App.HandleAddRobot` | src/App.js:26-28 | the list grows by one, the new robot is last and the earlier elements are unchanged; the filtered list gains it iff it matches |
| `AppView.App.SetShowModal` | src/App.js:13 | the modal flag takes the given value |
| `Modals.SetField` | src/components/modal/Modals.jsx:38-41 | the named field takes the new value; every other field keeps its own |
| `Modals.StyleSuffix` | src/components/modal/Modals.jsx:14-19 | `robotstyle[key]`: "undefined" exactly for a key outside the table; each of the four suffixes names its own style |
| `Modals.ImageUrl` | src/components/modal/Modals.jsx:29 | the URL starts with the robohash address and first+last name; its suffix reads back as the selected style, and as no style for a key outside the table |
| `Modals.ImageUrlExample` | src/components/modal/Modals.jsx:29 | "Rob", "Ot", "Robots" give `https://robohash.org/RobOt.png?set=set1` |
| `Modals.BuildNewRobot` | src/components/modal/Modals.jsx:46-52 | the name is empty exactly when first and last name are both white space, and is "first last" when neither has white space at its outer end; username, email, phone and image are copied |
| `Modals.IsComplete` | src/components/modal/Modals.jsx:54-60 | the guard's definition: all five fields of the record are non-empty (stated in terms of the form by `Modals.CompleteIff`) |
| `Modals.SubmissionBody` | src/components/modal/Modals.jsx:95 | the posted body has no `styleType`; its five fields are all non-empty exactly when the record passed the guard; adding a style gives the intended body |
| `Modals.IntendedSubmissionBody` | src/components/modal/Modals.jsx:46-52 | the corrected body carries the selected style; all six fields are non-empty exactly when the record passed the guard and a style is selected |
| `Modals.CompleteIff` | src/components/modal/Modals.jsx:46-63 | the guard passes iff first and last name are not both white space and username, email, phone and image URL are non-empty |
| `Modals.ReadPhoneReply` | src/components/modal/Modals.jsx:68-83 | no reply, a non-2xx status or a non-JSON body is an error; otherwise the phone counts as taken exactly when the body is `{exists: true}` |
| `Modals.ReadCreateReply` | src/components/modal/Modals.jsx:99-117 | a 2xx record reply yields that record; an error reply yields its non-empty `msg`, else its status (with the body text when it is not JSON) |
| `Modals.SubmitStep` | src/components/modal/Modals.jsx:67-130 | check-phone is sent first and create exactly when the phone reads "not taken"; a record is added exactly when create then returned one, and it is that record; the form is cleared then and kept otherwise; the prompt is the phone problem, "phone taken" or the create problem, per the step that stopped |
| `Modals.AddStep` | src/components/modal/Modals.jsx:43-137 | a no-op while loading; otherwise `isLoading` ends false, check-phone for the form's phone is the first request, and a record is added exactly when the form is complete, the phone is free and create returned it, and it is that record |
| `Modals.AddIncompleteSendsNothing` | src/components/modal/Modals.jsx:54-63 | with a blank name or an empty username, email, phone or image, Add only prompts, sends nothing and keeps the form |
| `Modals.AddPhoneTakenStops` | src/components/modal/Modals.jsx:83-86 | a taken phone stops after check-phone: create is not sent, nothing is added and the form is kept |
| `Modals.AddPhoneCheckFails` | src/components/modal/Modals.jsx:68-80 | a failed phone check (no reply, an error status or a non-JSON body) shows its problem, sends only check-phone, adds nothing and keeps the form |
| `Modals.AddCreateFails` | src/components/modal/Modals.jsx:99-115 | a failed create after a free phone shows the create reply's problem, sent both requests, adds nothing and keeps the form |
| `Modals.AddSuccessClears` | src/components/modal/Modals.jsx:117-129 | a successful create passes the returned record on once, clears every field, the URL and the style, and sent check-phone then create with the form's record |
| `Modals.AddRobotModal.constructor` | src/components/modal/Modals.jsx:7-22 | the form starts empty, with no style, no URL and not loading |
| `Modals.AddRobotModal.HandleSelectChange` | src/components/modal/Modals.jsx:23-25 | only the selected style changes |
| `Modals.AddRobotModal.HandleInfo` | src/components/modal/Modals.jsx:38-41 | only the edited field changes |
| `Modals.AddRobotModal.HandleGenerateClick` | src/components/modal/Modals.jsx:27-36 | with first name, last name and style set, the URL becomes the robohash URL; otherwise a prompt and no change |
| `Modals.AddRobotModal.HandleAdd` | src/components/modal/Modals.jsx:43-137 | the new form state, prompt and requests are those of `AddStep`; the parent list grows by exactly the added record and the modal closes only on success |
| `Modals.AddRobotModal.AddSucceeded` | src/components/modal/Modals.jsx:117-129 | `onAddRobot` appends the record, the modal closes and the form is cleared |
| `Modals.AddRobotModal.Close` | src/components/modal/Modals.jsx:233-244 | the modal closes and the form, URL and style are cleared; the list is unchanged |
| `Server.Validate` | server/server.js:45-50 | a body missing any of the six fields gets 400 "Please enter all fields"; otherwise its six strings pass on unchanged |
| `Server.SaveOutcome` | server/server.js:52-61 | a save succeeds iff there is no fault and no unique key is taken; a taken key fails with code 11000; the saved record has the submitted fields and the id `nextId` |
| `Server.SaveKeepsInvariant` | server/server.js:61 | a successful save keeps ids, usernames, emails and phones unique across the records, and every id below the next one to hand out |
| `Server.SaveFailureResponse` | server/server.js:65-72 | code 11000 gives 400 with the duplicate message; any other failure gives 500 with the save error |
| `Server.CreatedResponse` | server/server.js:61-64 | success gives 201 with the saved record, its name prefixed by "DEBUG: " |
| `Server.IntendedCreatedResponse` | server/server.js:61-64 | the corrected success response: 201 with the saved record itself |
| `Server.PostResponse` | server/server.js:61-72 | the answer is 201 exactly when the save succeeded |
| `Server.DebugEchoDiffers` | server/server.js:62-64 | for a fresh record the 201 body's name is "DEBUG: " + name, which differs from the stored name; every other field is the stored one |
| `Server.IntendedEchoIsSubmitted` | server/server.js:52-64 | with the corrected echo, the 201 body carries exactly the submitted fields |
| `Server.DuplicateRejected` | server/server.js:66-69 | reusing a taken username, email or phone gets 400 with the fixed duplicate message |
| `Server.Store.constructor` | server/server.js:17 | the store starts empty and valid |
| `Server.Store.Save` | server/server.js:61 | the outcome is `SaveOutcome`; the record is appended iff saved, under an id no stored record has; the invariant is kept |
| `Server.PostRobot` | server/server.js:43-73 | a rejected body changes nothing and gets the validation answer; otherwise the answer follows the save outcome; the store grows iff the answer is 201 |
| `Server.ListResponse` | server/server.js:21-29 | 200 with the stored records unchanged and in order; 500 with the fetch error when the store fails |
| `Server.FindOne` | server/server.js:34 | finds a record iff some record has exactly that phone, and returns the first such record |
| `Server.CheckPhoneResponse` | server/server.js:32-40 | 200 with `exists` true iff a stored record has exactly that phone string (no normalisation); 500 when the store fails |
| `EndToEnd.SubmissionAlwaysRejected` | src/components/modal/Modals.jsx:46-52 | the posted body has no `styleType`, so the service's validation answers 400 "Please enter all fields" |
| `EndToEnd.EveryCreateRequestRejected` | src/components/modal/Modals.jsx:88-97 | every create request an Add click can send is rejected by the service's validation |
| `EndToEnd.AddNeverSucceeds` | src/components/modal/Modals.jsx:99-115 | against that answer Add adds nothing, keeps the form and shows "Please enter all fields" once create was sent |
| `EndToEnd.PhoneProbeRoundTrip` | server/server.js:32-40 | the form reads the check-phone answer as "some stored record has exactly this phone", or as status 500 |
| `EndToEnd.DuplicateSurfaces` | server/server.js:66-69 | a duplicate at create time reaches the user as the service's duplicate message |
| `EndToEnd.IntendedSubmissionAccepted` | server/server.js:45-64 | with `styleType` sent and the record echoed, a complete form with fresh keys is stored with exactly its fields, and the form receives that record |
| `EndToEnd.AsWrittenEchoReachesList` | server/server.js:62-64 | as written, the form receives a record whose name is "DEBUG: " + name, not the stored record |
| `EndToEnd.RobOtName` | src/components/modal/Modals.jsx:47 | "Rob" and "Ot" make the record name "Rob Ot" |
| `EndToEnd.RobOtScenario` | src/components/modal/Modals.jsx:43-137 | Rob/Ot/Robots with phone "555-0100": the "RobOt" set-1 URL, name "Rob Ot", check-phone then create; as written, create is rejected and nothing is added |

## Left out

- The mount-time list fetch (`src/App.js:15-20`) is left out. It is one event-loop callback that replaces the list with the service's answer, or logs and keeps it empty.
- Transport: `fetch`, status objects and content-type sniffing become the `Reply` and `Payload` values. A body with a JSON content type that fails to parse is not distinguished from a JSON body.
- Async interleaving: each handler is one atomic step. React's batched state updates, stale closures, and a second Add click before re-render are not modelled.
- `alert` and `console` calls become the returned `Alert` values. Error text with status numbers becomes `Problem` variants, not strings.
- Rendering and JSX are left out, as are `CardArrays.jsx`, `SearchBox.jsx` and `PopUp.jsx`, which are presentational.
- Express, cors and dotenv setup, `mongoose.connect`, `app.listen` and the `GET /` liveness route are I/O plumbing and are left out.
- `models/Robot` is not part of this model. Its unique index is modelled on username, email and phone. `_id` is a counter and `__v` is left out.
- The check-phone URL embeds the phone without URL-encoding. The model passes the phone to the service verbatim, so a phone containing `/`, `?`, `#` or `%` is not modelled.
- `TextUtil.ToLower`: ASCII letters only; full Unicode `toLowerCase` is not modelled.
- `Modals.AddRobotModal.HandleInfo`: only the five input names; `[name]: value` with another name would add a key to `user`.
- `Modals.StyleSuffix`: any key outside the table renders as "undefined". Inherited keys such as "toString" are not modelled; the drop-down offers only the four styles.
- `Api.Body`: fields are strings or absent. Numbers, booleans and `null` in the JSON body, and Mongoose's casting of them, are not modelled.
- `Modals.ReadCreateReply`: a 2xx reply whose JSON is not a robot record is a failure (`UnexpectedBody`). The source would pass that value to `onAddRobot`, but the list here holds only records.

## Findings

| source | as written | input that shows it | evidently intended | confidence | as-written member | corrected member |
|---|---|---|---|---|---|---|
| src/components/modal/Modals.jsx:46-52 | the create body has name, username, email, phone and image but no `styleType`, and server/server.js:48 requires `styleType` | any complete form, e.g. Rob / Ot / Robots with phone "555-0100": the service answers 400 "Please enter all fields" and no robot can ever be added | send the selected style as `styleType` | high (not executed) | `Modals.SubmissionBody`, shown by `EndToEnd.SubmissionAlwaysRejected` and `EndToEnd.RobOtScenario` | `Modals.IntendedSubmissionBody`, proved by `EndToEnd.IntendedSubmissionAccepted` |
| server/server.js:62-64 | the 201 body's name is "DEBUG: " + the stored name | any fresh record named "Rob Ot": the body says "DEBUG: Rob Ot" while the store holds "Rob Ot" | echo the saved record unchanged | high (not executed) | `Server.CreatedResponse`, shown by `Server.DebugEchoDiffers` and `EndToEnd.AsWrittenEchoReachesList` | `Server.IntendedCreatedResponse`, proved by `Server.IntendedEchoIsSubmitted` and `EndToEnd.IntendedSubmissionAccepted` |

The route handlers and the form model the code as written. The corrected
members sit beside them and carry the intended properties.
