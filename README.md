# CoverYourApps training player: a Dafny model

This project models the core logic of the CoverYourApps training-module player:

- **Response tracking and per-session state** (`index.js`). `POST /api/track/:resource/:behavior`
  records a visitor's first choice on a quiz prompt (a *resource*) in the `track` table
  and in the visitor's session. It replies with the per-behavior counts for that resource.
  The progress and username handlers read and write the same session record.
- **The slide player** (`$scope.module` in `moduleController.js`). It holds page and section
  counters over the loaded module document, the `sectionNames` and `scripts` lookup maps,
  the choice of module from the URL path, and the feedback shown for a clicked quiz option.
- **The completion screen** (`completionController.js`). It holds the confetti colour cycler
  `particleColors.getColor` and the "start over" button.

Module `Tracking` (tracking.dfy) defines each server handler as one step over a `State`.
A `State` holds the multiset of `track` rows and the map from session id to `Session`.
A `Session` holds `behaviors`, `progress` and `username`.
The step functions are `Track`, `SetProgress`, `GetProgress`, `SetUsername` and `GetUsername`.
`Apply` and `Run` serve a single request and a sequence of requests.
`Tally` is the grouped `SELECT ... GROUP BY behavior`.
The database's answer to each query is a parameter (`DbOutcome`).
Module `TrackingServer` (tracking_server.dfy) is a class `Server` with the table and the
session store as fields. Each of its methods updates them in source order and is proved
to equal the matching step. Module `Navigation` (navigation.dfy) is the class `ModuleScope`
with the fields of `$scope.module`. Module `Completion` (completion.dfy) holds the class
`ParticleColors` and `StartOver`.

Two properties of the code differ from what a comparison feature might be expected to do:

- `track` runs the grouped `SELECT` before the `INSERT`, so a first submission's reply leaves out
  the submitter's own vote (`OwnVoteExcluded`, `ScenarioBankOfVvest`). The comment at
  index.js:49-50 says so too. A reply that counted the vote would need the read after the insert.
- There is no transaction. The session is marked before the database step (index.js:71), and
  a failed step does not clear the mark. Suppose the session middleware then saves the marked
  session. After a failed `INSERT`, the visitor's vote is never recorded, and every retry from
  that session only reads the tally (`MarkSurvivesStoreFailure`, `RetriesAppendAtMostOnce`).
  With a transaction spanning the insert and the mark, a failed insert would leave the session
  unmarked, and a retry would append the row.

In the source, reading a field of `undefined` throws. The navigation methods model this as a
result `ok == false`. Assignments made before the throw stay in place, as they do in the source.

## Model

| member | source | states |
|---|---|---|
| `Tracking.Tally` | index.js:56 | the grouped count has an entry for exactly the behaviors with a row for the resource, and each entry is that positive number of rows |
| `Tracking.TallyAppendSame` | index.js:56-77 | inserting (r, b) adds exactly one to b's count for r and leaves the other counts for r unchanged |
| `Tracking.TallyAppendOther` | index.js:56-77 | inserting a row for r leaves every other resource's tally unchanged |
| `Tracking.TallyMonotone` | index.js:77 | while rows are only added, no behavior disappears from a tally and no count decreases |
| `Tracking.Track` | index.js:52-88 | after any track, the session has a behavior for r: the earlier one if there was one, else b; the table gains at most the one (r, b) row; a successful reply is the tally before the step (the full properties are in the lemmas below) |
| `Tracking.TrackFirstSubmission` | index.js:68-87 | first submission: behaviors[r] becomes b, exactly one (r, b) row is added when the INSERT succeeds and none otherwise, success iff both queries succeed, and the reply is the tally before the insert; the session's progress and username and every other session are unchanged |
| `Tracking.OwnVoteExcluded` | index.js:74-82 | on a successful first submission, the tally after the step equals the reply with b's count raised by one, so the reply leaves out the submitter's own vote |
| `Tracking.TrackRepeat` | index.js:57-67 | a repeat submission with any behavior changes no state; it replies with the current full tally, or fails when the SELECT fails |
| `Tracking.TrackIdempotent` | index.js:52-88 | a second track for the same session and resource leaves the state as the first left it, and reads the tally that includes the first's row |
| `Tracking.MarkSurvivesStoreFailure` | index.js:70-86 | when the database step fails, the reply is an error, the session mark behaviors[r] == b is kept, and a failed INSERT adds no row |
| `Tracking.Apply` | index.js:52-128 | serving one request never removes a row and adds at most one |
| `Tracking.Run` | index.js:52-128 | serving a sequence of requests never removes a row and adds at most one per request |
| `Tracking.ApplyEvents` | index.js:52-128 | a request adds a row exactly when it is a first submission whose INSERT succeeds, and then adds exactly that one (resource, behavior) row; every other request leaves the table unchanged |
| `Tracking.ApplyExtends` | index.js:52-128 | no request removes a row, or changes or removes a behavior a session has recorded |
| `Tracking.RunExtends` | index.js:52-128 | over any sequence of requests, recorded behaviors are write-once and the table only grows, so no count decreases |
| `Tracking.RetriesAppendAtMostOnce` | index.js:52-88 | of any run of track requests for one (session, resource), only the first can add a row, and afterwards the session has answered the resource |
| `Tracking.RepeatsAppendNothing` | index.js:57-67 | track requests for a resource the session has already answered leave the whole state unchanged |
| `Tracking.SetProgress` | index.js:98-105 | progress[m] of the session becomes (section, page), and the echo carries m and that position |
| `Tracking.SetProgressOverwritesOnly` | index.js:98-105 | setProgress changes only progress[m] of that session, leaving the session's behaviors and username, every other session and the table unchanged |
| `Tracking.GetProgress` | index.js:107-115 | afterwards progress[m] is present and equals the reply, which is {section: 1, page: 1} when nothing was stored |
| `Tracking.GetProgressStoredOrDefault` | index.js:107-115 | getProgress returns the stored position or else {section: 1, page: 1}, and stores that value under the module; the session's behaviors and username, every other session and the table are unchanged |
| `Tracking.ProgressRoundTrip` | index.js:98-115 | a position read back after it was set is the position set, and the read changes nothing |
| `Tracking.SetUsername` | index.js:117-120 | the session's username becomes the given name |
| `Tracking.GetUsername` | index.js:122-128 | a returned name is non-empty and is the stored one; null means no name or the empty name is stored |
| `Tracking.UsernameLatest` | index.js:117-128 | getUsername returns the most recently set name, or null when that name is empty; setting it leaves the session's behaviors and progress, every other session and the table unchanged |
| `Tracking.UsernameUnset` | index.js:122-128 | a session that never set a name reads null |
| `Tracking.ScenarioBankOfVvest` | index.js:46-88 | on a fresh resource, s1 "yes" replies {}, s2 "no" replies {yes: 1}, and a retry by s1 with "no" replies {yes: 1, no: 1} and changes nothing |
| `TrackingServer.Server.Track` | index.js:52-88 | the in-place handler (mark, then tally, then insert) leaves exactly the state and reply of `Tracking.Track` |
| `TrackingServer.Server.SetProgress` | index.js:98-105 | the in-place handler leaves exactly the state and echo of `Tracking.SetProgress` |
| `TrackingServer.Server.GetProgress` | index.js:107-115 | the in-place handler stores the default when absent and returns exactly what `Tracking.GetProgress` returns |
| `TrackingServer.Server.SetUsername` | index.js:117-120 | the in-place handler leaves exactly the state of `Tracking.SetUsername` |
| `TrackingServer.Server.GetUsername` | index.js:122-128 | returns the stored name only when it is non-empty; otherwise null |
| `TrackingServer.RetryInSameSession` | index.js:57-81 | on a fresh server, the first submission replies {} and a retry in the same session with another behavior replies {b1: 1} |
| `Navigation.LastIndexOf` | app/components/module/moduleController.js:107-113 | the result is -1 or an index whose key matches, and no later index matches, so it is the last match |
| `Navigation.SlideAt` | app/components/module/moduleController.js:53 | a selected slide is one of the section's slides, and the result is undefined exactly when the page is below 1 or past the last slide |
| `Navigation.ScriptsOf` | app/components/module/moduleController.js:41-44 | the loop's scripts map has at most one entry per loaded section (its other properties are in the two lemmas below) |
| `Navigation.ScriptsOfKeys` | app/components/module/moduleController.js:41-44 | the names in scripts are exactly the names of the loaded sections |
| `Navigation.ScriptsOfLastWins` | app/components/module/moduleController.js:41-44 | a name is in scripts iff some loaded section has it, and scripts[name] holds the slides of the last section with that name |
| `Navigation.ScriptsOfDistinct` | app/components/module/moduleController.js:41-44 | with distinct section names, scripts[data[i].sectionName] is data[i].slides |
| `Navigation.Contains` | app/components/module/moduleController.js:30-33 | `includes` holds only when the text fits in the path, and always for the empty text (equivalence with the substring definition is `ContainsIff`) |
| `Navigation.ContainsSound` | app/components/module/moduleController.js:30-33 | when `includes` holds, the text occurs at some index of the path |
| `Navigation.ContainsComplete` | app/components/module/moduleController.js:30-33 | every occurrence of the text in the path makes `includes` hold |
| `Navigation.ContainsIff` | app/components/module/moduleController.js:30-33 | `includes` holds exactly when the text is a substring of the path |
| `Navigation.SelectModule` | app/components/module/moduleController.js:29-36 | Authentication iff the path contains "auth", even when it also contains "phishing"; Phishing iff it contains "phishing" and not "auth" |
| `Navigation.ModuleScope.constructor` | app/components/module/moduleController.js:5-25 | the initial counters: page 1, section 0, length 10, no content, empty lookup maps, no answer shown |
| `Navigation.ModuleScope.SelectFromPath` | app/components/module/moduleController.js:28-36 | sets the module name and returns its document path as the selection dictates; with no match the name is kept and the path is empty |
| `Navigation.ModuleScope.Load` | app/components/module/moduleController.js:39-46 | stores the document, sets sectionNames[i] == data[i].sectionName for every i, adds each section's slides to scripts (the last section of a name wins), then does exactly what nextSection does |
| `Navigation.ModuleScope.FillLookups` | app/components/module/moduleController.js:41-44 | the load loop adds map i :: data[i].sectionName to sectionNames and ScriptsOf(data) to scripts, keeping older keys |
| `Navigation.ModuleScope.DisplayPageContent` | app/components/module/moduleController.js:51-57 | selects json[sectionNumber-1].slides[pageNumber-1], or undefined for a page out of range; it throws when sectionNumber is outside 1..|json|; on a valid slide it always succeeds |
| `Navigation.ModuleScope.DecrementPage` | app/components/module/moduleController.js:62-68 | a no-op on page 1; otherwise the page goes down by exactly 1 and the slide is redisplayed; no other counter changes; keeps the player on a valid slide |
| `Navigation.ModuleScope.IncrementPage` | app/components/module/moduleController.js:71-77 | a no-op when page >= length; otherwise the page goes up by exactly 1 and the slide is redisplayed; keeps 1 <= page <= length |
| `Navigation.ModuleScope.NextSection` | app/components/module/moduleController.js:80-86 | takes section and length from json[sectionNumber] (the old 0-based index), sets page 1 and adds 1 to sectionNumber; throws and changes nothing when that index is out of range |
| `Navigation.ModuleScope.PrevSection` | app/components/module/moduleController.js:88-94 | as written: takes section and length from json[sectionNumber] (the following section), sets page 1 and subtracts 1 from sectionNumber; throws and changes nothing on the last section |
| `Navigation.ModuleScope.PrevSectionIntended` | app/components/module/moduleController.js:88-94 | corrected: takes section and length from the previous section json[sectionNumber-2], and keeps the player on a valid slide |
| `Navigation.ModuleScope.SetSection` | app/components/module/moduleController.js:97-103 | sectionNumber == index+1, page 1, section == name, length == |scripts[name]|; throws after the first three assignments when the name is not in scripts |
| `Navigation.ModuleScope.SubmitResponse` | app/components/module/moduleController.js:105-114 | always shows the answer; response and responseCorrect come from the last option whose text equals the clicked text, unchanged when none match; throws when the slide has no options |
| `Navigation.ModuleScope.ScanOptions` | app/components/module/moduleController.js:107-113 | the option loop leaves the feedback and correctness of the last matching option, or the old values when none matches |
| `Navigation.PrevSectionMislabels` | app/components/module/moduleController.js:88-94 | from the middle of three consistent sections, prevSection labels the player "C" with length 3 while it shows section A's first slide |
| `Navigation.PrevSectionStuckOnLast` | app/components/module/moduleController.js:88-94 | from the last section, prevSection throws and the section counter stays |
| `Completion.CycleStep` | app/components/completion/completionController.js:41-50 | one getColor update takes the counters after k calls to the counters after k+1 calls |
| `Completion.ColorRun` | app/components/completion/completionController.js:41-50 | calls 10q+1 to 10q+10 all use colour q mod 12, with incrementer 1 to 10 |
| `Completion.ColorWraps` | app/components/completion/completionController.js:44-47 | after twelve runs of ten the colour sequence starts again |
| `Completion.ParticleColors.constructor` | app/components/completion/completionController.js:36-40 | a fresh cycler has index 0 and incrementer 0 |
| `Completion.ParticleColors.GetColor` | app/components/completion/completionController.js:41-51 | the literal 10 triggers the move; afterwards 0 <= colorIndex < 12 and 1 <= colorIncrementer <= 10; returns colorOptions at the updated index, which on the k-th call is colour ((k-1)/10) mod 12 |
| `Completion.FirstElevenColors` | app/components/completion/completionController.js:37-50 | a fresh cycler returns DodgerBlue ten times, then OliveDrab |
| `Completion.StartOver` | app/components/completion/completionController.js:9-13 | sets sectionNumber and pageNumber to 1, then redisplays the first slide of the first section; section and length are not touched |
| `Completion.StartOverKeepsStaleLength` | app/components/completion/completionController.js:9-13 | starting over from page 3 of a second section keeps that section's title "B" and length 3 while it shows the first section's only slide |
| `Completion.StartOverIntended` | app/components/completion/completionController.js:9-13 | corrected: also takes section and length from the first section, and keeps the player on a valid slide |

## Findings

| source | as written | input that shows it | evidently intended | confidence | as-written member | corrected member |
|---|---|---|---|---|---|---|
| app/components/module/moduleController.js:89-90 | `prevSection` reads `json[sectionNumber]`, the section after the current one, then decrements the counter | three sections A (1 slide), B (2), C (3), current section 2: the title becomes "C" and the length 3 while A's slide is shown; from the last section the read is of `undefined` and throws | read `json[sectionNumber - 2]`, the previous section | high, not executed | `Navigation.ModuleScope.PrevSection`, `Navigation.PrevSectionMislabels`, `Navigation.PrevSectionStuckOnLast` | `Navigation.ModuleScope.PrevSectionIntended` |
| app/components/completion/completionController.js:9-12 | `startOver` resets only the two counters, so `section` and `length` keep the values of the section the visitor left | two sections A (1 slide), B (3), on B page 3: after start over the length stays 3, so `incrementPage` goes past A's only slide | also set `section` and `length` from the first section | medium, not executed | `Completion.StartOver`, `Completion.StartOverKeepsStaleLength` | `Completion.StartOverIntended` |

## Left out

- The Express setup is not modelled: the SSL redirect, the Postgres-backed session store, the cookie and secret settings, static files and the port listen (index.js:3-31, index.js:130-133). They are framework configuration and I/O.
- `/api/dbtest` and `/api/test-session` are not modelled. They are a raw table dump and a diagnostic session dump, not part of the tracking logic.
- The database is a parameter: `DbOutcome` says whether the SELECT and the INSERT succeeded. The SELECT's rows are modelled as a map from behavior to count. The source sends a JSON list of rows in no fixed order, with counts as strings.
- Timing is not modelled. Each handler is one atomic step in code order. Promise sequencing and races between concurrent requests on one session or resource are outside a sequential model. The callbacks and the order in which replies are sent are left out too.
- The session store is a map from session id to record. A session not in the map reads as an empty record. Session creation, saving and expiry belong to the session middleware.
- Saving the session is assumed to succeed. The model writes it in the same step as the handler. In the source, express-session saves the marked session to the same Postgres database after the reply (index.js:14-17). If that save fails, two things change. After a failed INSERT the session stays unmarked, so a retry is a first submission again. After a successful INSERT a retry appends a second row. `MarkSurvivesStoreFailure`, `RetriesAppendAtMostOnce` and `RepeatsAppendNothing` hold only when the save succeeds.
- `Tracking.SetProgress`: section and page are integers. The source stores the route parameters as strings, while the default it writes is the numbers 1 and 1.
- JavaScript object-key quirks are not modelled (keys such as `__proto__` or inherited names like `constructor` in `behaviors` or `scripts`). All map keys behave as plain strings.
- `FetchModel`, `$location`, `safeApply`, `console.log` and the Angular wiring are not modelled. `SelectFromPath` returns the document path, and `Load` is the fetch callback. Slide content other than the quiz options is one string. The controller sets `$scope.module.slide` only to `{}` at moduleController.js:17. The slide whose options a click is checked against is assigned from outside the controller. Until that happens, `SubmitResponse` shows the answer and then throws, which the model returns as `ok == false`. The stray merge-conflict line in `displayPageContent` is ignored.
- The confetti animation is not modelled: particles, random numbers, trigonometry, canvas drawing, timers and animation frames (app/components/completion/completionController.js:54-231).
- sketchyEmailController.js is not part of this model. It builds dialog HTML and calls `submitQuizResponse`, which is defined elsewhere.
- `Completion.ParticleColors.GetColor` requires the cycler's counters to be those of some number of calls. The source only ever changes them through `getColor`, starting from 0 and 0.
