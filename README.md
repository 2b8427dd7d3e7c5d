# Learning-management dashboard controller, modelled in Dafny

This project models the browser-side controller of a learning-management
dashboard (`src/main/java/lk/sliit/lms/api/frontend/script.js`). The
controller:

- switches between the page's sections (courses, assignments, profile) and
  marks the clicked navigation link;
- fetches course, assignment and activity lists from a remote service and
  renders them as cards;
- posts enroll and submit actions, shows overall progress and downloads the
  transcript, reporting each result in a notification;
- shows the user profile and lets the user edit it in a modal form sent as
  multipart data.

The DOM is made explicit as the fields of one class, `Dashboard.Page`:
- which sections carry `hidden`, and which links carry `active`;
- the three list containers, each as a sequence of card records;
- the profile fields;
- the notification (text, error colour, displayed) and the number of hide
  timers still queued;
- the edit forms appended to the document body.

Everything outside the model becomes a parameter of the operation:
- each network call is an outcome: `Ok(value)`, `NotOk` (non-ok status) or
  `Rejected(message)` (the request failed or the body did not decode);
- the clock (`now`);
- the locale's date formatting (`localeDate`).

Modules:
- `DecimalText`: how numbers become text;
- `Endpoints`: base URL, request paths, requests and call outcomes;
- `Views`: cards, `formatTime`, `getActivityIcon`, profile binding;
- `ProfileForm`: edit-form values, the multipart body, closing a form;
- `Dashboard`: the page class and its operations;
- `Scenarios`: consequences proved from the operations' contracts alone.

The model follows what the code does, including where it does less than a reader
might expect:
- `showNotification` does not cancel an earlier hide timer. An older timer
  can hide a newer message early (`Scenarios.StaleTimerHidesNewerMessage`).
- `editProfile` appends a new form without closing an open one, and does not
  fill in the current name and email.
- With two forms open, the inputs are looked up by id, so a submission sends
  the first form's values (`Scenarios.SecondFormIsShadowed`).
- A failed list fetch leaves the old cards in place. The container is cleared
  only after the response body has decoded, not before the fetch.

## Model

| member | source | states |
|---|---|---|
| `DecimalText.NatToString` | src/main/java/lk/sliit/lms/api/frontend/script.js:150-152 | a number's text is a non-empty run of digits with no leading zero; it is a single digit exactly below 10, and "0" for zero |
| `DecimalText.NatToStringRoundTrip` | src/main/java/lk/sliit/lms/api/frontend/script.js:150-151 | reading a number's displayed text back yields the number |
| `DecimalText.NatToStringInjective` | src/main/java/lk/sliit/lms/api/frontend/script.js:87 | two numbers have the same text only if they are equal |
| `DecimalText.PercentText` | src/main/java/lk/sliit/lms/api/frontend/script.js:127-152 | `${n}%` ends in a single '%', and everything before it is exactly the numeral of n |
| `DecimalText.PercentTextReadsBack` | src/main/java/lk/sliit/lms/api/frontend/script.js:152 | `${n}%` is the numeral of n followed by '%', and that numeral reads back as n |
| `Endpoints.FailureMessage` | src/main/java/lk/sliit/lms/api/frontend/script.js:34-53 | a non-ok status reports the caller's fixed message; a rejected call reports the exception's own message |
| `Endpoints.EnrollUrlIdentifiesCourse` | src/main/java/lk/sliit/lms/api/frontend/script.js:87 | the enroll URL starts with base URL + "/courses/" and different course ids give different URLs |
| `Endpoints.SubmitUrlIdentifiesAssignment` | src/main/java/lk/sliit/lms/api/frontend/script.js:105 | the submit URL starts with base URL + "/assignments/" and different assignment ids give different URLs |
| `Endpoints.EnrollAndSubmitUrlsDiffer` | src/main/java/lk/sliit/lms/api/frontend/script.js:87-105 | no enroll URL is a submit URL or the course-list URL |
| `Views.RenderExtend` | src/main/java/lk/sliit/lms/api/frontend/script.js:40-50 | appending one item to the input appends exactly its card |
| `Views.RenderAt` | src/main/java/lk/sliit/lms/api/frontend/script.js:40-50 | a rendered list has one card per item, card k built from item k, nothing else |
| `Views.Render` | src/main/java/lk/sliit/lms/api/frontend/script.js:40-50 | the rendered list has as many cards as items, and the last card is the last item's |
| `Views.CourseCardOf` | src/main/java/lk/sliit/lms/api/frontend/script.js:43-48 | a course card shows the course's title, description and instructor, and its button enrolls in that course's id |
| `Views.AssignmentCardOf` | src/main/java/lk/sliit/lms/api/frontend/script.js:71-76 | an assignment card shows title and description, the due date in the locale's format, and its button submits that assignment's id |
| `Views.ActivityItemOf` | src/main/java/lk/sliit/lms/api/frontend/script.js:174-181 | an activity item shows the type's icon (never empty), the title, the description and the formatted age |
| `Views.ActivityIcon` | src/main/java/lk/sliit/lms/api/frontend/script.js:190-198 | the icon is never empty: the table's glyph for a listed type, the pin for every other type |
| `Endpoints.EnrollUrl` | src/main/java/lk/sliit/lms/api/frontend/script.js:87 | the URL is base + "/courses/", then exactly the numeral of the course id, then "/enroll" |
| `Endpoints.SubmitUrl` | src/main/java/lk/sliit/lms/api/frontend/script.js:105 | the URL is base + "/assignments/", then exactly the numeral of the assignment id, then "/submit" |
| `Dashboard.Background` | src/main/java/lk/sliit/lms/api/frontend/script.js:14 | the colour is #dc2626 exactly for an error and #2563eb exactly otherwise |
| `Dashboard.Display` | src/main/java/lk/sliit/lms/api/frontend/script.js:15-17 | the display is "block" exactly when shown and "none" exactly when hidden |
| `Dashboard.ErrorNotice` | src/main/java/lk/sliit/lms/api/frontend/script.js:51-52 | a failure notice is shown in the error colour, with the fixed text for a non-ok status and the exception's text for a rejection |
| `Dashboard.ActionNotice` | src/main/java/lk/sliit/lms/api/frontend/script.js:94-98 | an action's notice is shown, is an error iff the call failed, and carries the success text on success and the fixed failure text on a non-ok status |
| `Dashboard.ProgressText` | src/main/java/lk/sliit/lms/api/frontend/script.js:127 | the text is "Overall Progress: ", then exactly the numeral of the percentage, then '%' |
| `Dashboard.Rebind` | src/main/java/lk/sliit/lms/api/frontend/script.js:36-50 | after a successful load the list has one card per item; after a failed load it is the previous list |
| `Dashboard.Fragment` | src/main/java/lk/sliit/lms/api/frontend/script.js:321 | the fragment is the href with its first character removed ("" for an empty href) |
| `Views.ElapsedOf` | src/main/java/lk/sliit/lms/api/frontend/script.js:204-208 | the four buckets are exact (negative ages are "just now"); the minute count is in 1..59 and the hour count in 1..23, each the floor of the quotient |
| `Views.FormatTime` | src/main/java/lk/sliit/lms/api/frontend/script.js:201-210 | the text is "Just now" below a minute (future times included), "N minutes ago" with N in 1..59 or "N hours ago" with N in 1..23 (N the floor of the quotient), or the locale date from a day on |
| `Views.FormatTimeExamples` | src/main/java/lk/sliit/lms/api/frontend/script.js:201-210 | ages of 10 s, 5 min, 2 h and 3 days give "Just now", "5 minutes ago", "2 hours ago" and the date |
| `Views.ActivityIconTable` | src/main/java/lk/sliit/lms/api/frontend/script.js:190-198 | each of course, assignment, quiz and grade gets its own glyph; the pin is returned exactly for every other type |
| `Views.AvatarSource` | src/main/java/lk/sliit/lms/api/frontend/script.js:147 | the image source is never empty: the avatar when present and non-empty, the placeholder URL otherwise |
| `Views.BindProfile` | src/main/java/lk/sliit/lms/api/frontend/script.js:145-152 | name and email are shown as received, the avatar or the placeholder; each counter is exactly its number's numeral; the grade is its numeral followed by '%' |
| `Views.BindProfileReadsBack` | src/main/java/lk/sliit/lms/api/frontend/script.js:150-152 | the shown counters are digits reading back as the profile's numbers; the grade is digits reading back as the profile's grade, then '%' |
| `ProfileForm.ProfilePayload` | src/main/java/lk/sliit/lms/api/frontend/script.js:234-241 | the body is name then email, plus the avatar file as a third entry only when one was chosen |
| `ProfileForm.PayloadRoundTrip` | src/main/java/lk/sliit/lms/api/frontend/script.js:234-241 | the body reads back as the form's values; its keys start with name, email; "avatar" occurs iff a file was chosen |
| `ProfileForm.CloseFirst` | src/main/java/lk/sliit/lms/api/frontend/script.js:260-265 | closing removes exactly the first open form; with none open nothing changes |
| `ProfileForm.CloseFirstIdempotent` | src/main/java/lk/sliit/lms/api/frontend/script.js:260-265 | closing changes nothing iff no form is open; with at most one form open, closing twice equals closing once |
| `Dashboard.ActionNoticeMeaning` | src/main/java/lk/sliit/lms/api/frontend/script.js:94-98 | an action's notification is shown, is an error iff the call failed, carries the fixed success or failure text (success and failure texts differ); a rejection shows its own message |
| `Dashboard.ProgressTextReadsBack` | src/main/java/lk/sliit/lms/api/frontend/script.js:127 | the progress text is "Overall Progress: ", then the percentage's numeral, which reads back as the percentage, then '%' |
| `Dashboard.RebindContents` | src/main/java/lk/sliit/lms/api/frontend/script.js:36-50 | after a successful load the container holds one card per item in server order (none for an empty list); after a failed load it is unchanged |
| `Dashboard.IndexOf` | src/main/java/lk/sliit/lms/api/frontend/script.js:137 | the element looked up by id is at a position holding that id |
| `Dashboard.ExactlyOneVisible` | src/main/java/lk/sliit/lms/api/frontend/script.js:22-32 | after hide-all and show-one, the set of visible sections is exactly the requested one |
| `Dashboard.ExactlyOneActive` | src/main/java/lk/sliit/lms/api/frontend/script.js:318-319 | after clearing all markers and marking link i, the set of active links is exactly {i} |
| `Dashboard.RouteOf` | src/main/java/lk/sliit/lms/api/frontend/script.js:321-328 | the fragments courses, assignments and profile route to their loader; every other fragment routes nowhere |
| `Dashboard.RouteIgnoresFirstCharacter` | src/main/java/lk/sliit/lms/api/frontend/script.js:321 | the route depends only on the href after its first character; "#courses", "#assignments", "#profile" route to their loaders; "" and "#" route nowhere |
| `Dashboard.Page.constructor` | src/main/java/lk/sliit/lms/api/frontend/script.js:5-9 | the page starts with the sections, links, lists, profile fields and notification element its markup gives, no hide timer queued and no open form |
| `Dashboard.Page.ShowNotification` | src/main/java/lk/sliit/lms/api/frontend/script.js:12-18 | text becomes the message, the error flag the argument, the element is shown, and one more hide timer is queued without cancelling the others |
| `Dashboard.Page.HideTimerFires` | src/main/java/lk/sliit/lms/api/frontend/script.js:16-18 | a queued timer hides the element, whatever message it shows, and nothing else changes |
| `Dashboard.Page.HideAllSections` | src/main/java/lk/sliit/lms/api/frontend/script.js:22-26 | every section carries `hidden` afterwards |
| `Dashboard.Page.ShowSection` | src/main/java/lk/sliit/lms/api/frontend/script.js:32 | only the named section loses `hidden` |
| `Dashboard.Page.SwitchTo` | src/main/java/lk/sliit/lms/api/frontend/script.js:31-32 | the named section is shown and every other is hidden, whatever was shown before (so repeating it changes nothing) |
| `Dashboard.Page.ReplaceCourseCards` | src/main/java/lk/sliit/lms/api/frontend/script.js:38-50 | the course container becomes the rendering of the courses in order |
| `Dashboard.Page.ReplaceAssignmentCards` | src/main/java/lk/sliit/lms/api/frontend/script.js:66-78 | the assignment container becomes the rendering of the assignments in order, due dates in the locale's format |
| `Dashboard.Page.ReplaceActivityItems` | src/main/java/lk/sliit/lms/api/frontend/script.js:168-183 | the activity list becomes one item per activity in order, with its icon and relative time |
| `Dashboard.Page.LoadCourses` | src/main/java/lk/sliit/lms/api/frontend/script.js:29-54 | only the courses section is visible even if the fetch fails; success re-renders the list with no notification; failure leaves the list and raises exactly one error notification with the fixed or thrown message; one GET to /courses |
| `Dashboard.Page.LoadAssignments` | src/main/java/lk/sliit/lms/api/frontend/script.js:57-82 | as loadCourses, for the assignments section, list and message |
| `Dashboard.Page.LoadRecentActivity` | src/main/java/lk/sliit/lms/api/frontend/script.js:162-187 | success re-renders the activity list; failure keeps it and raises one error notification; sections are untouched |
| `Dashboard.Page.LoadProfile` | src/main/java/lk/sliit/lms/api/frontend/script.js:134-159 | only the profile section is visible; success binds the profile then loads activity; failure keeps the fields, loads no activity and raises one error |
| `Dashboard.Page.FetchProfile` | src/main/java/lk/sliit/lms/api/frontend/script.js:139-158 | after the switch: success binds the profile then loads activity (two GETs); failure keeps the fields and list, sends one GET and raises one error |
| `Dashboard.Page.EnrollCourse` | src/main/java/lk/sliit/lms/api/frontend/script.js:85-100 | one POST to base + /courses/{id}/enroll; only the notification changes, to the fixed success or error message |
| `Dashboard.Page.SubmitAssignment` | src/main/java/lk/sliit/lms/api/frontend/script.js:103-118 | one POST to base + /assignments/{id}/submit; only the notification changes, to the fixed success or error message |
| `Dashboard.Page.ClickEnroll` | src/main/java/lk/sliit/lms/api/frontend/script.js:47 | a card's enroll button enrolls in that card's course |
| `Dashboard.Page.ClickSubmit` | src/main/java/lk/sliit/lms/api/frontend/script.js:75 | a card's submit button submits that card's assignment |
| `Dashboard.Page.ViewProgress` | src/main/java/lk/sliit/lms/api/frontend/script.js:121-131 | success shows "Overall Progress: N%" as info; failure shows the error; nothing else changes |
| `Dashboard.Page.DownloadTranscript` | src/main/java/lk/sliit/lms/api/frontend/script.js:268-287 | one GET to /user/transcript; only the notification changes, to the fixed success or error message |
| `Dashboard.Page.MarkActive` | src/main/java/lk/sliit/lms/api/frontend/script.js:318-319 | afterwards link j is active iff j is the clicked link |
| `Dashboard.Page.ClickNavLink` | src/main/java/lk/sliit/lms/api/frontend/script.js:316-329 | exactly the clicked link is active. Each of the three fragments has its loader's full effect: section, requests, its list or profile, the notification and timer count, and every other list left as it was. Any other fragment changes nothing else and sends nothing |
| `Dashboard.Page.EditProfile` | src/main/java/lk/sliit/lms/api/frontend/script.js:213-229 | one empty form is appended after any already open |
| `Dashboard.Page.FillForm` | src/main/java/lk/sliit/lms/api/frontend/script.js:219-221 | the user's entries replace form k's input values and no other form's |
| `Dashboard.Page.CloseModal` | src/main/java/lk/sliit/lms/api/frontend/script.js:260-265 | the forms become those left after closing the first |
| `Dashboard.Page.SubmitProfileEdit` | src/main/java/lk/sliit/lms/api/frontend/script.js:231-256 | one PUT of the first form's payload. Failure: forms, sections and fields unchanged, one error. Success: first form closed, only the profile section shown, then the reload's exact requests, fields, activity list, final notification and timer count (one more per failed fetch) |
| `Dashboard.Page.CompleteEdit` | src/main/java/lk/sliit/lms/api/frontend/script.js:249-252 | after an ok update: the success notice, the first form closed, only the profile section shown, then the reload's requests, fields, activity list, final notification and timer count |
| `Scenarios.StaleTimerHidesNewerMessage` | src/main/java/lk/sliit/lms/api/frontend/script.js:12-18 | after two notifications the first timer hides the second message while one timer is still queued |
| `Scenarios.SecondFormIsShadowed` | src/main/java/lk/sliit/lms/api/frontend/script.js:229-238 | with two editors open, what is typed into the second is not sent; the first form's values are |
| `Scenarios.EditRoundTrip` | src/main/java/lk/sliit/lms/api/frontend/script.js:243-252 | with a service that echoes the submitted values, the displayed name and email equal the submitted ones and the editor is closed |
| `Scenarios.LoadersSwitchFirst` | src/main/java/lk/sliit/lms/api/frontend/script.js:29-34 | after loadCourses, whatever the outcome, the visible sections are exactly {courses} |

## Left out

- HTTP itself, `response.json()` and `response.blob()` are not modelled. Each call is an outcome parameter, and the request the controller issues is returned as a value.
- Card markup and `innerHTML` templates are not modelled. A card is a record of the fields it displays. Interpolation is unescaped in the source; that security issue is not modelled either.
- `toLocaleDateString` depends on the locale, so it is the parameter `localeDate`. The clock is the parameter `now`.
- The clock is read once per load. The source reads it again for every activity item, so its time may advance during one render.
- Timer timing is not modelled. The 3000 ms delay is a queued hide event (`HideTimerFires`), fired oldest first.
- Overlapping asynchronous loads are not modelled. This includes `loadRecentActivity` and `loadProfile` started without `await` (lines 155, 252). In the model each load runs to completion in one step.
- The transcript save is not modelled: the blob, the object URL and the temporary `transcript.pdf` anchor (lines 273-281).
- The unused sample arrays of the `DOMContentLoaded` handler are not modelled (lines 292-312).
- Numbers are non-negative integers. Ids, counters, `averageGrade` and `progress.overall` are `nat`. JavaScript's text for fractional or negative numbers is not modelled.
- `DecimalText.NatToString` matches JavaScript only below 2^53. Above that, JSON decoding rounds the number; from 10^21 on it prints as exponential text ("1e+21"). `Endpoints.EnrollUrl`, `Endpoints.SubmitUrl`, their injectivity lemmas, `Views.BindProfile` and the progress text inherit this bound.
- `Dashboard.Fragment` drops one Unicode scalar, where `substring(1)` drops one UTF-16 code unit. For an href starting with a character outside the Basic Multilingual Plane, the source leaves a lone surrogate and loads nothing. The model routes on the rest of the text.
- Timestamps are integer milliseconds. An unparsable timestamp, which gives "Invalid Date", is not modelled.
- `Views.ActivityIcon` assumes the type is an own key of the table or some other string. Keys inherited by JavaScript objects (such as "constructor") would return a function in the source.
- A successful response whose body is not an array is not modelled. In the source, `forEach` would then throw after the container was cleared.
- The page markup is assumed, not modelled: section ids are distinct and include courses, assignments and profile; every link has an href; no element has class `modal` when the script starts. The initial state of the sections, links, list containers, profile fields and notification element is whatever the markup gives, taken as constructor parameters.
- The browser checks the required and email inputs before submitting. The model does not restrict the submit event by those checks.
- The JSON content-type header sent with the enroll and submit POSTs is not modelled.
