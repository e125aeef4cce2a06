# AccessFlow core, modelled in Dafny

AccessFlow is a web-accessibility service with four parts. A backend keeps users, their settings profiles and their accessibility scans. A browser extension restyles pages from the stored settings. The signup page rates a password. The dashboard and profile pages edit the scan list and the settings. This project models the deterministic rules under those parts and proves what they promise.

- `js.dfy` (module `Js`) holds the JavaScript values and built-ins the other modules need. It covers JSON-shaped values, truthiness, property reads, `||`, object spread, `startsWith` and `includes`.
- `auth.dfy` (module `Auth`) models the `checkAuth` bearer-header guard of the backend. The JWT verifier is a function parameter.
- `server.dfy` (module `Server`) models the register, login, profile and scan handlers. They are methods of a class `Store` whose `users`, `profiles` and `scans` tables are sequences. bcrypt, JWT signing, the pa11y audit and every database failure are parameters. A ghost invariant `Valid` says that each user has exactly one profile, ids grow, emails are unique and scans are stored oldest first.
- `content.dfy` (module `Content`) models the extension's content script. The CSS patch is built by successive appends in a method. It is proved equal to a specification function, and that function is proved to determine the recognised contrast and font modes it came from. `document.head` is the sequence of style elements of a class `Page`.
- `signup.dfy` (module `Signup`) models the password-strength score, its label and the five strength bars.
- `dashboard.dfy` (module `Dashboard`) models the issue grouping of the results modal and the list updates of scan submission and deletion. Submission and deletion are methods of a class `DashboardView` over the component's state. It also has the status icon and the issue-count colour rules.
- `profile_page.dfy` (module `ProfilePage`) models the settings editing, the select defaults, the load and save handlers, and the message colour.

Two behaviours of the code are worth stating up front:

- The content script is not idempotent. Every call appends another `<style id="accessflow-styles">` element and never replaces an earlier one. `Content.ReapplyDuplicates` proves that applying twice leaves two such elements.
- The settings guard of the profile update accepts arrays as well as objects, because `typeof [] === 'object'`. `Server.SettingsAccepted` states exactly which values pass.

## Model

| member | source | states |
|---|---|---|
| Auth.VerifyErrorMessage | server/index.js:65-73 | `JsonWebTokenError` maps to "Invalid token" and `TokenExpiredError` to "Token expired", each if and only if; every other name maps to "Authentication failed" |
| Auth.CheckAuth | server/index.js:44-74 | a missing header or one without the case-sensitive prefix `"Bearer "` is refused with the missing-token message; the user is authenticated exactly when the verifier decodes the token after the prefix; a prefixed header whose verification throws is refused with the message mapped from the error's name, and every other refusal carries such a message |
| Auth.BearerRoundTrip | server/index.js:49-59 | for any token `t`, the header `"Bearer " + t` hands exactly `t` to the verifier, and the outcome is the verifier's verdict on `t` |
| Auth.LowerCaseSchemeRejected | server/index.js:49-53 | a header with the scheme written `bearer` is refused before the verifier is consulted |
| Server.FindByEmail | server/index.js:97-104 | the row found is a user with that email; no row found means no user has that email |
| Server.FindUser | server/index.js:220-235 | the row found is a user with that id; no row found means no user has that id |
| Server.ProfileFor | server/index.js:220-241 | the row found is a profile of that user; no row found means the user has no profile |
| Server.WithSettings | server/index.js:267-270 | the update keeps the table's length; each of the user's rows gets the new document in place of the old one, and every other row is unchanged |
| Server.SettingsAccepted | server/index.js:263-265 | the guard lets a settings value through exactly when it is an array or an object |
| Server.OwnedNewestFirst | server/index.js:365-367 | the listing holds exactly the user's rows; when the table is stored oldest first, the listing is strictly newest first |
| Server.FailurePayload | server/index.js:334-337 | a failed row stores an object with exactly the keys `name` and `message`; each is the error's own text, or `ScanError` and the default message when that text is missing or empty, so neither is empty |
| Server.Caught | server/index.js:304-323 | the outer `catch` is reached exactly when the audit throws or the insert of the completed row throws; the audit's error wins, and when the audit passed the error caught is exactly the one the insert threw |
| Server.OneProfilePerUser | server/index.js:110-128 | in a well-formed store every user owns exactly one profile row, and every profile row belongs to an existing user |
| Server.ReplaceThenRead | server/index.js:267-281 | reading a profile back after a replace gives the new document, with nothing kept from the old one |
| Server.ReplaceLeavesOthers | server/index.js:267-270 | a replace changes no other user's profile |
| Server.ListingAfterInsert | server/index.js:314-321 | a newly inserted row heads its owner's listing and appears in no other user's listing |
| Server.Store.Register | server/index.js:81-156 | missing fields give 400, then a short password gives 400, then a known email gives 409, all with no write; 400 and 409 are answered only in those cases; on commit exactly one user and one profile with settings `{}` are appended; any failure before COMMIT leaves both tables as they were; 201 exactly when the rows were committed and a token was signed; every other outcome is the 500 error; the store stays well formed |
| Server.Store.InsertAccount | server/index.js:110-128 | BEGIN, the user insert, the profile insert with settings `{}` and COMMIT: committed exactly when no step fails, and then exactly the new user and their profile are appended; on any failure both tables are as before (the ROLLBACK at server/index.js:150); the scans table is untouched and the store stays well formed |
| Server.Store.Login | server/index.js:159-209 | missing fields give 400; an unknown email and a wrong password both give the same 401 "Invalid email or password"; 200 with the user's public fields exactly when the email is known, the password matches and a token is signed; every other outcome is the 500 login error |
| Server.Store.GetProfile | server/index.js:216-255 | 404 when the user or their profile is missing; an existing user with a profile gets 200; a 200 carries the user's public fields with their profile id and settings document |
| Server.Store.PutProfile | server/index.js:258-287 | a falsy or non-object document gives 400 and no write; otherwise the user's document is replaced wholesale; 404 when the user has no profile; 200 with the updated row otherwise; no other table changes and the store stays well formed |
| Server.Store.RecordScan | server/index.js:295-358 | a missing url gives 400 and no row; otherwise it appends one `completed` row with the audit output and answers 201, or it appends one `failed` row with the failure payload and answers 500; when the failed row cannot be inserted either, it answers the distinct 500 "Scan failed and could not be logged." and adds no row; the store stays well formed |
| Server.Store.ListScans | server/index.js:361-374 | a 200 listing holds exactly the caller's rows, strictly newest first |
| Content.ContrastOf | extension/content.js:11-28 | the mode is Dark Mode or High Contrast exactly when the setting is that string; anything else is no contrast mode |
| Content.FontOf | extension/content.js:31-45 | the mode is Large or Medium exactly when the setting is that string; anything else is the default font |
| Content.CssFor | extension/content.js:8-45 | the patch is empty exactly when no mode is recognised; it is the contrast fragment followed by the font fragment |
| Content.ModesRoundTrip | extension/content.js:11-45 | the modes read back from a patch are the modes it was built from, so different recognised settings never give the same CSS |
| Content.ReapplyDuplicates | extension/content.js:48-51 | applying the same settings twice adds two elements with id `accessflow-styles`, so the head differs from applying once |
| Content.Page.BuildCss | extension/content.js:7-45 | the patch built by the four conditional appends equals the specification patch for the settings |
| Content.Page.ApplyFixes | extension/content.js:7-51 | the head gains exactly one new style element, last, with id `accessflow-styles` and the patch as its content; earlier elements are kept |
| Content.Page.OnStoredSettings | extension/content.js:57-63 | the patch is applied exactly when the stored settings are truthy; otherwise the head is unchanged |
| Signup.LengthPoints | src/Components/SignupPage.jsx:28-29 | length gives at most 2 points; none below 6 characters, and 2 exactly from 10 characters on |
| Signup.CalculatePasswordStrength | src/Components/SignupPage.jsx:26-34 | the counter equals the number of criteria met, counting length twice, and is at most 5 |
| Signup.ShortLowerCaseScoresZero | src/Components/SignupPage.jsx:26-34 | the empty password and any all-lower-case password shorter than 6 score 0 |
| Signup.ClassCountsOnce | src/Components/SignupPage.jsx:30-32 | another upper-case letter adds nothing once one is present |
| Signup.ExtendingNeverWeakens | src/Components/SignupPage.jsx:26-34 | appending characters never lowers the score |
| Signup.Label | src/Components/SignupPage.jsx:173 | the label is "Too Short" exactly when the score is 0 (or out of range), and `strengthLabels[score - 1]` otherwise |
| Signup.BarClass | src/Components/SignupPage.jsx:162-166 | a bar is filled exactly when its index is below the score, and a filled bar has the score's colour |
| Signup.Bars | src/Components/SignupPage.jsx:159-168 | of the five bars, bar `i` is filled exactly when `i < score`, and all filled bars have the same colour |
| Signup.LabelsDistinguishScores | src/Components/SignupPage.jsx:170-173 | each score from 0 to 5 has its own label, and the text is green exactly for Fair, Good and Strong |
| Dashboard.IssuesOf | src/Components/Dashboard.jsx:20 | a missing or falsy issue list gives no issues, and an issue array is taken as it is |
| Dashboard.GroupIssues | src/Components/Dashboard.jsx:20-25 | the three groups are the errors, warnings and notices of the scan's issues, and together they hold at most as many issues as the scan has |
| Dashboard.OfType | src/Components/Dashboard.jsx:23-25 | a group keeps exactly the issues of its type and is never longer than the issue list |
| Dashboard.OfTypeAppend | src/Components/Dashboard.jsx:23-25 | grouping keeps the original order: it distributes over concatenation |
| Dashboard.GroupsWithinTotal | src/Components/Dashboard.jsx:20-25 | errors, warnings and notices together hold at most as many issues as the scan has |
| Dashboard.NoResultsNoGroups | src/Components/Dashboard.jsx:20 | a scan without results has three empty groups |
| Dashboard.ReplacePending | src/Components/Dashboard.jsx:303-305 | every pending entry is replaced by the new scan; the length and every other entry are kept |
| Dashboard.WithoutId | src/Components/Dashboard.jsx:341 | the list keeps exactly the entries with a different id, and never grows |
| Dashboard.WithoutIdAppend | src/Components/Dashboard.jsx:341 | removing by id keeps the order of the remaining entries |
| Dashboard.WithoutAbsentId | src/Components/Dashboard.jsx:319 | removing an id that no entry has leaves the list as it was |
| Dashboard.FailedSubmitRestores | src/Components/Dashboard.jsx:280-321 | prepending the placeholder and then removing the pending entries gives back the previous list |
| Dashboard.SucceededSubmitPrepends | src/Components/Dashboard.jsx:280-305 | prepending the placeholder and then replacing it leaves the new scan on top of the previous list |
| Dashboard.StatusIconOf | src/Components/Dashboard.jsx:349-360 | the spinner shows exactly for pending scans, the crash icon exactly for failed ones, and the warning exactly for other scans with a positive issue count |
| Dashboard.CountColourOf | src/Components/Dashboard.jsx:477-479 | the count is green at 0, yellow from 1 to 10 and when absent, and red above 10 |
| Dashboard.IssueWord | src/Components/Dashboard.jsx:481 | the noun is "issue" exactly when the count is 1, and "issues" for every other count, an absent one included |
| Dashboard.BlankIffAllWhitespace | src/Components/Dashboard.jsx:271 | `!url.trim()` holds exactly when every character of the url is white space |
| Dashboard.DashboardView.Submit | src/Components/Dashboard.jsx:268-325 | a blank url sets the error and changes nothing else; otherwise the placeholder is prepended and then either replaced by the returned scan (url cleared, completed scan selected) or removed again with the server's error or the default message; scanning ends false |
| Dashboard.DashboardView.Delete | src/Components/Dashboard.jsx:328-346 | nothing changes unless confirmed; a successful delete removes exactly the entries with that id; a failed one keeps the list and sets the error |
| Js.Spread | src/Components/ProfilePage.jsx:46-49 | a spread copies an object's own fields; for the other values every copied key is a non-empty string of decimal digits |
| ProfilePage.SettingChanged | src/Components/ProfilePage.jsx:44-50 | the new settings are an object whose key `name` holds the chosen value, and every other key is as the spread copied it (for an object, as before) |
| ProfilePage.LoadedSettings | src/Components/ProfilePage.jsx:31 | the loaded settings are the response's settings when truthy and `{}` otherwise, so they are never falsy |
| ProfilePage.FontSizeShown | src/Components/ProfilePage.jsx:109 | the font-size select shows the stored value, or "Default" when it is absent or empty |
| ProfilePage.ContrastShown | src/Components/ProfilePage.jsx:126 | the contrast select shows the stored value, or "None" when it is absent or empty |
| ProfilePage.FontSizeChangeShown | src/Components/ProfilePage.jsx:44-50 | after choosing a font size the select shows it (the default for the empty value), and the contrast select is unchanged |
| ProfilePage.ContrastChangeShown | src/Components/ProfilePage.jsx:44-50 | after choosing a contrast mode the select shows it (the default for the empty value), and the font-size select is unchanged |
| ProfilePage.SettingChangedTwice | src/Components/ProfilePage.jsx:46-49 | setting the same key twice keeps only the second value |
| ProfilePage.EditedSettingsAccepted | src/Components/ProfilePage.jsx:65-66 | the body sent after any edit carries a settings document that the backend's guard accepts |
| ProfilePage.MessageIsError | src/Components/ProfilePage.jsx:144 | the message is styled red exactly when "Error" occurs in it at some offset |
| ProfilePage.MessageColours | src/Components/ProfilePage.jsx:143-147 | both failure messages contain "Error" and are styled red; the success message does not and is styled green |
| ProfilePage.ProfileView.OnLoad | src/Components/ProfilePage.jsx:14-42 | without a token, or when the request fails, the page goes to login and its state is kept; otherwise the loaded settings are shown and loading ends |
| ProfilePage.ProfileView.HandleSettingChange | src/Components/ProfilePage.jsx:44-50 | the settings become the single-key update of the previous settings; nothing else changes |
| ProfilePage.ProfileView.HandleSubmit | src/Components/ProfilePage.jsx:52-86 | without a token it sets "Error: Not logged in.", sends nothing and goes to login; otherwise it sends `{settings}` and shows the success or failure message, going to login only on a 401 |

## Left out

- The libraries are parameters. bcrypt's hash and compare, JWT signing and verification, and the pa11y audit are not modelled.
- PostgreSQL and Express plumbing is abstracted. Each handler's database failures are parameters. SQL text, connection handling, CORS, the health route, the 404 handler and server start are not modelled.
- A failure of `pool.connect` and a failing `ROLLBACK` inside the register `catch` are not modelled.
- Server.Store.Register: the registration lookup fault is a single "fails" choice. The model does not distinguish which error the driver throws.
- Server.Store.Register: when token signing throws after COMMIT, the model answers 500 and keeps both rows. This is what the code does, since the `ROLLBACK` in the `catch` then has nothing to undo.
- The serial id sequences are not rewound by a rollback. This follows PostgreSQL sequence semantics.
- Concurrency and `async` interleavings are not modelled. Each handler and each React event runs to completion as one step.
- Timestamps are a counter that grows with every insert. Server.Store.ListScans is ordered by it strictly, so equal `scanned_at` values are not modelled.
- JavaScript numbers are integers. NaN, fractions and floating point are not modelled.
- Request body fields are strings or absent. A non-string `name`, `email`, `password` or `url` is not modelled, and neither is the `length` of a non-string password.
- Signup.CalculatePasswordStrength: lengths count Unicode scalar values, while JavaScript counts UTF-16 code units. A password with characters outside the Basic Multilingual Plane can therefore score lower here.
- Server.Store.Register: the same UTF-16 length difference applies to the 6-character minimum.
- Js.Spread: strings spread one entry per Unicode scalar value, not per UTF-16 code unit.
- `JSON.stringify` dropping `undefined` fields is not modelled.
- An issue entry that is `null` makes the JavaScript `filter` throw. Dashboard.OfType reads such an entry as having no type.
- Dashboard.IssuesOf: a truthy `results.issues` that is not an array makes `issues.filter` throw a TypeError in the modal. The model reads it as no issues instead.
- Dashboard.DashboardView.Submit: the success case assumes the response carries a scan object. A response without one throws inside the `try`, and that path is not modelled.
- Dashboard.DashboardView.Submit: the placeholder's `scanned_at` timestamp is not modelled.
- The dashboard's initial scan loading (`fetchScans`), the modal's rendering and the date formatting are not modelled.
- ProfilePage.ProfileView.OnLoad: the removal of the stored token after a 401 is not modelled. Neither is a response body that is `null`, which throws.
- ProfilePage.ProfileView.HandleSubmit: the removal of the stored token after a 401 is not modelled. Neither is the timer that clears the success message after three seconds.
- Browser APIs are abstracted. Storage, navigation and `confirm` are parameters and results, and `chrome.storage` callbacks and `console` output are not modelled.
- The presentation-only files are not part of this model: the landing-page sections, the navigation bar, the router, the login page and the extension popup.
- The client and the server disagree in places, and each side is modelled against its own code:
  - The dashboard reads `response.data.scans` and `response.data.scan`, but the server answers a bare array and a bare row.
  - The dashboard reads `results.issues` and `issueCount`, which the server does not store in that shape.
  - The dashboard calls a DELETE endpoint that the server does not define.
  - The signup page sends no `name`, but the server requires one.
