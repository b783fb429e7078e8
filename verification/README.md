# Research ERP front end: form, auth and dashboard-list model

This project is a Dafny model of the logic in the research-output dashboard's front end. The dashboard has no server. Sessions and drafts live in browser local storage. The model covers four parts:

- **The multi-step submission form** (`SubmissionForm`). The user picks a cohort: journal, conference, book, copyright or patent. They then move through the cohort's steps. Moving forward is guarded by a per-cohort validator. The user edits fields and an ordered author list. Whenever a cohort is selected and the form has at least one field, every change is autosaved under `draft_<cohort>`. An author added to a form with no fields yet is not saved. Choosing a cohort loads its draft. Submitting writes a `lastSubmission` record, deletes the draft and resets the form. The React state and local storage form one `Form` value. Each handler is a transition function on that value. The class `FormsFormat` holds the same state in fields, and each of its methods is proved to perform its transition.
- **The tracking id** (`TrackingIds`). It is `'R'` followed by the last eight base-36 digits of the submission time.
- **The local user database and session service** (`Auth`). The class `AuthService` keeps the user database and the current session in memory, in step with local storage under `users_db` and `current_user`. It covers login, registration with its ordered checks, profile update, password change, logout, the user listing without passwords, import, and reset to defaults.
- **The dashboard lists** (`RohitPage`, `HemantPage`). These are the case-insensitive search filters, the expand/collapse toggle map, and append-only event creation.

Shared pieces:
- `Text` models `trim`, `toLowerCase` and `includes`.
- `Collections` models `filter`, `find`, index removal and the toggle.
- `Wrappers` defines `Option` and `Result`.

The clock (`Date.now()`, `toISOString()`), `parseInt` and `toLocaleDateString` results, and the chosen options of a multi-select come in as parameters. Stored JSON is represented by the values it parses to (`Json`, `DbDoc`, `Draft`).

Two details of the code are modelled as written:
- The code does not catch a draft that fails to parse (`formformat.jsx:25`). So the model has no silent fallback to an empty draft there.
- The email domain is `email.split('@')[1]`. That is the text between the first and second `@`, not everything after the first one.

In two places the component follows the evidently intended behaviour, and the code as written is modelled beside it (see Findings):
- The cohort switch. As written, the code carries the previous form into the newly chosen cohort. That behaviour is modelled as `SelectAsWritten`, and the lemmas beside it prove the leak. `FormsFormat.SelectCohort` performs the corrected `Select`, which loads the new cohort's own draft and carries nothing over.
- The id a registration allocates. As written, `Math.max(...ids) + 1` is `-Infinity` on an empty users array. That is modelled as `NextIdAsWritten`, which agrees with `NextId` on every non-empty list (`NextIdAsWrittenAgrees`). `AuthService.Register` allocates with the corrected `NextId`, which gives 1 on an empty list.

## Model

| member | source | states |
|---|---|---|
| Text.Lower | frontend/src/pages/rohitpage.jsx:163-164 | `toLowerCase` keeps the length and lower-cases each character on its own (`LowerChar`) |
| Text.LowerChar | frontend/src/pages/rohitpage.jsx:163-164 | an upper-case ASCII letter becomes the letter 32 code points later, and the result is never upper-case |
| Text.Contains | frontend/src/pages/rohitpage.jsx:163-164 | `includes` holds only when the query is no longer than the text, and every text includes itself |
| Text.ContainsEmpty | frontend/src/pages/rohitpage.jsx:163-164 | every text includes the empty query, which is why an empty search keeps every row |
| Text.Trim | frontend/src/forms/formformat.jsx:62 | `trim` gives the empty string exactly when the text is all white space; otherwise the result starts and ends with a non-white character |
| Text.TrimRemovesOnlyEnds | frontend/src/forms/formformat.jsx:62 | the result of `trim` is a slice of its input, and everything cut away before and after it is white space |
| Text.TrimIdempotent | frontend/src/login/authService.js:131-137 | trimming an already trimmed string changes nothing |
| Collections.Filter | frontend/src/pages/rohitpage.jsx:163-166 | `filter` keeps exactly the elements that pass the test, each as many times as it occurs in the input, and drops every copy of one that fails; it is never longer than its input |
| Collections.FilterIsSubsequence | frontend/src/pages/hemantpage.jsx:107-111 | the filter result keeps the input's order (it is a subsequence) |
| Collections.FilterKeepsAll | frontend/src/pages/rohitpage.jsx:163-166 | when every element passes, the filter returns the whole list |
| Collections.WithoutIndex | frontend/src/forms/formformat.jsx:49-51 | filtering by `i !== index` removes exactly position `index` and keeps the rest in order; an out-of-range index removes nothing |
| Collections.FirstIndex | frontend/src/login/authService.js:134-139 | `find` returns the first element that passes, and nothing only when no element passes |
| Collections.Toggle | frontend/src/pages/rohitpage.jsx:99-104 | `toggleExpanded(k)` flips entry `k` (an absent entry counts as off) and keeps every other entry |
| Collections.ToggleTwice | frontend/src/pages/hemantpage.jsx:26-31 | toggling the same entry twice restores every entry's on/off state |
| TrackingIds.Base36 | frontend/src/forms/formformat.jsx:94 | `toString(36).toUpperCase()` of a time is at least one character, all digits or upper-case letters, with no leading zero |
| TrackingIds.ValueOfBase36 | frontend/src/forms/formformat.jsx:94 | reading the base-36 text back gives the original time |
| TrackingIds.Last8 | frontend/src/forms/formformat.jsx:94 | `slice(-8)` is the suffix of length 8, or the whole text when it is 8 characters or shorter |
| TrackingIds.TrackingId | frontend/src/forms/formformat.jsx:94 | the tracking id starts with `R`, is 2 to 9 characters long, and is base-36 digits after the `R` |
| TrackingIds.TrackingIdInjective | frontend/src/forms/formformat.jsx:94 | two times below 36^8 ms give the same tracking id only when they are equal |
| SubmissionForm.WithField | frontend/src/forms/formformat.jsx:55 | writing `author[field]` sets that field and keeps the other three |
| SubmissionForm.DraftKeysDistinct | frontend/src/forms/formformat.jsx:14-34 | each cohort has its own `draft_<cohort>` key, and none equals `lastSubmission` |
| SubmissionForm.LoadDraftReadsOneKey | frontend/src/forms/formformat.jsx:23-27 | loading a cohort's draft depends only on that cohort's key |
| SubmissionForm.TotalSteps | frontend/src/forms/formformat.jsx:87-90 | copyright and patent have 1 step; every other cohort (and no cohort) has 3 |
| SubmissionForm.ValidateStep | frontend/src/forms/formformat.jsx:59-68 | validation fails only at step 0 of a journal or conference, and then exactly when the title is missing, not text, or white space only |
| SubmissionForm.Autosave | frontend/src/forms/formformat.jsx:14-18 | autosave writes only the selected cohort's draft key, and only when the form is non-empty; the draft then reads back as the form (save/load round trip) |
| SubmissionForm.SetField | frontend/src/forms/formformat.jsx:36-43 | a field edit sets exactly key `name`, keeps every other key, authors, step and cohort, and writes through to the cohort's draft |
| SubmissionForm.AppendAuthor | frontend/src/forms/formformat.jsx:45-47 | `addAuthor` appends one blank `Author` and leaves earlier authors unchanged; on a form with no fields (or no cohort) storage is untouched |
| SubmissionForm.DropAuthor | frontend/src/forms/formformat.jsx:49-51 | `removeAuthor(i)` removes exactly position `i`, keeping order; an out-of-range `i` changes nothing; on a form with no fields (or no cohort) storage is untouched |
| SubmissionForm.EditAuthor | frontend/src/forms/formformat.jsx:53-57 | `updateAuthor(i, f, v)` changes only field `f` of author `i`; length and other authors are unchanged; `i` must be in range; on a form with no fields (or no cohort) storage is untouched |
| SubmissionForm.Next | frontend/src/forms/formformat.jsx:70-79 | a failed validation leaves the state unchanged; otherwise the step advances by one exactly when it is below the last; the step stays in range |
| SubmissionForm.Prev | frontend/src/forms/formformat.jsx:81-85 | the step goes back by one exactly when it is positive, so it never becomes negative; it stays in range |
| SubmissionForm.LoadCohort | frontend/src/forms/formformat.jsx:21-34 | loading cohort `c` sets the form and authors to `c`'s stored draft (missing parts empty) at step 0; afterwards the draft reads back as the form |
| SubmissionForm.Select | frontend/src/forms/formformat.jsx:21-34 | choosing another cohort replaces the form with that cohort's draft at step 0, with nothing of the previous form carried over, and that draft then reads back as the new form; choosing the current cohort changes nothing; choosing none only clears the selection |
| SubmissionForm.SelectAsWritten | frontend/src/forms/formformat.jsx:13-34 | the cohort switch as the two effects run it: the new cohort is selected, and from an empty form it behaves exactly like the corrected `Select` |
| SubmissionForm.SelectAsWrittenCarriesForm | frontend/src/forms/formformat.jsx:13-34 | as the effects run, switching away from a non-empty form carries that form into the new cohort and overwrites the new cohort's draft with it |
| SubmissionForm.SelectAsWrittenLeaksExample | frontend/src/forms/formformat.jsx:13-34 | a journal title typed before switching to conference appears in the conference form as written, but not in `Select` |
| SubmissionForm.SwitchBackRestores | frontend/src/forms/formformat.jsx:14-34 | switching from `c1` to `c2` and back restores exactly the fields and authors `c1` had |
| SubmissionForm.Submit | frontend/src/forms/formformat.jsx:92-112 | submission records the tracking id it is given, the time and the cohort under `lastSubmission`, removes the cohort's draft, keeps every other key, and resets to an empty form at step 0 |
| SubmissionForm.SubmitClearsDraft | frontend/src/forms/formformat.jsx:98-104 | after submitting, coming back to the cohort finds an empty form and no authors |
| SubmissionForm.AdvanceReachesSubmit | frontend/src/forms/formformat.jsx:70-79 | once the current step validates, pressing Next up to the last step keeps the step in range and brings up the Submit button (later steps never block) |
| SubmissionForm.WhitespaceTitleBlocks | frontend/src/forms/formformat.jsx:59-79 | a white-space-only title at step 0 of a journal or conference leaves `nextStep` with no effect |
| SubmissionForm.CopyrightSubmitsAtOnce | frontend/src/forms/formformat.jsx:87-90 | a freshly selected copyright form is on its last step, ready to submit |
| SubmissionForm.AddTwiceRemoveFirst | frontend/src/forms/formformat.jsx:45-51 | adding two authors to an empty list and removing the first leaves exactly one blank author |
| SubmissionForm.FormsFormat.constructor | frontend/src/forms/formformat.jsx:5-8 | the component starts with no cohort, step 0, empty form and authors |
| SubmissionForm.FormsFormat.SaveDraft | frontend/src/forms/formformat.jsx:14-18 | the autosave effect performs `Autosave` on the component's state |
| SubmissionForm.FormsFormat.HandleInputChange | frontend/src/forms/formformat.jsx:36-38 | performs `SetField` with a text value and keeps the step in range |
| SubmissionForm.FormsFormat.HandleSelectMultiple | frontend/src/forms/formformat.jsx:40-43 | performs `SetField` with the list of chosen option values |
| SubmissionForm.FormsFormat.AddAuthor | frontend/src/forms/formformat.jsx:45-47 | performs `AppendAuthor` |
| SubmissionForm.FormsFormat.RemoveAuthor | frontend/src/forms/formformat.jsx:49-51 | performs `DropAuthor` |
| SubmissionForm.FormsFormat.UpdateAuthor | frontend/src/forms/formformat.jsx:53-57 | performs `EditAuthor` by writing the field of an entry in a copied list |
| SubmissionForm.FormsFormat.NextStep | frontend/src/forms/formformat.jsx:70-79 | raises the alert exactly when validation fails, and performs `Next` |
| SubmissionForm.FormsFormat.PrevStep | frontend/src/forms/formformat.jsx:81-85 | performs `Prev` |
| SubmissionForm.FormsFormat.SelectCohort | frontend/src/forms/formformat.jsx:21-34 | performs the corrected `Select`; the step stays in range and the write-through invariant is kept |
| SubmissionForm.FormsFormat.HandleSubmit | frontend/src/forms/formformat.jsx:92-112 | called from the Submit button, which shows only on the last step (lines 996-1005); returns the tracking id for `now` and performs `Submit` |
| SubmissionForm.FormsFormat.RecordSubmission | frontend/src/forms/formformat.jsx:97-111 | the storage writes and the delayed reset of `handleSubmit` perform `Submit` with the computed tracking id and keep `Valid()` |
| Auth.DefaultUsers | frontend/src/login/authService.js:10-45 | the defaults are users 1 and 2, both active and never logged in, with minimum password length 6 |
| Auth.AsUsersDb | frontend/src/login/authService.js:374-386 | a document is accepted as a database exactly when it parsed to an object with a `users` array |
| Auth.LoadUsers | frontend/src/login/authService.js:48-72 | a stored database that is missing, unparsable, not an object or without a `users` array is replaced by the defaults; otherwise it is used as stored |
| Auth.SaveThenLoad | frontend/src/login/authService.js:74-82 | a saved database loads back unchanged |
| Auth.LoadCurrentUser | frontend/src/login/authService.js:85-96 | no session when `current_user` is absent or does not parse; otherwise the parsed document (which is none for a stored `null`) |
| Auth.SessionOf | frontend/src/login/authService.js:99-115 | the session copies id, username, email, full name, department and role, stamped with the login time |
| Auth.LoginIndex | frontend/src/login/authService.js:131-139 | login picks the first user whose trimmed lower-cased username or email equals the trimmed lower-cased input, whose trimmed password equals the trimmed input, and who is active; there is none only when no user matches |
| Auth.LoginOutcome | frontend/src/login/authService.js:121-166 | login succeeds exactly when both arguments are non-empty and some user matches, and then picks the first matching user; otherwise it fails with missing credentials or invalid credentials |
| Auth.EmailDomain | frontend/src/login/authService.js:208 | `email.split('@')[1]` is the text between the first `@` and the next `@` or the end; it is absent when there is no `@` |
| Auth.RegistrationError | frontend/src/login/authService.js:177-215 | registration is rejected in order for a missing required field, a short password, a taken username or email (exact match), and a disallowed domain; it is accepted exactly when all checks pass |
| Auth.MaxId | frontend/src/login/authService.js:219 | the largest id of a non-empty list is one of its ids and bounds them all |
| Auth.NextId | frontend/src/login/authService.js:219 | the allocated id is max+1: larger than every existing id, and 1 for an empty list |
| Auth.NewUser | frontend/src/login/authService.js:218-229 | a new user gets id `NextId` (the largest existing id plus one, or 1 for no users), which is fresh (so unique ids stay unique), role faculty, is active, has never logged in, and has department "Not specified" when none is given |
| Auth.RegisteredUserCanLogIn | frontend/src/login/authService.js:131-233 | right after a successful registration, logging in with the new username and password succeeds |
| Auth.MaxAsWritten | frontend/src/login/authService.js:219 | `Math.max(...ids)` is one of the ids and bounds every finite one; it is -Infinity exactly when there is no finite id (in particular for no ids) |
| Auth.NextIdAsWritten | frontend/src/login/authService.js:219 | `Math.max(...ids) + 1` exceeds every finite id, and is -Infinity exactly when there is no finite id |
| Auth.NextIdAsWrittenAgrees | frontend/src/login/authService.js:219 | on a non-empty list, `Math.max(...ids) + 1` equals `NextId` |
| Auth.EmptyListIdsRepeat | frontend/src/login/authService.js:219 | as written, two registrations into an empty users array both get id -Infinity |
| Auth.ApplyUpdate | frontend/src/login/authService.js:296-302 | a profile update overwrites only the given fields among full name, department and email |
| Auth.IndexOfId | frontend/src/login/authService.js:286 | finds the first user with the id, and nothing only when no user has it |
| Auth.PasswordChangeError | frontend/src/login/authService.js:331-355 | a password change is rejected in order for an unknown id, a current password that differs after trimming, and a short new password; it is accepted exactly when all three checks pass |
| Auth.ChangedPasswordLogsIn | frontend/src/login/authService.js:331-358 | after a successful change, an active user logs in by username with the new password |
| Auth.PublicView | frontend/src/login/authService.js:268-280 | the listing has one entry per user, in order, with the user's id, username, email, full name, department, role, registration time, status and last login |
| Auth.PublicViewHidesPasswords | frontend/src/login/authService.js:268-280 | two user lists that differ only in passwords give the same listing |
| Auth.AuthService.constructor | frontend/src/login/authService.js:4-7 | the service starts with `LoadUsers` over the stored database (writing the defaults back when used) and with the stored session |
| Auth.AuthService.SaveUsers | frontend/src/login/authService.js:75-82 | saving stores the database and makes it the in-memory one |
| Auth.AuthService.SaveCurrentUser | frontend/src/login/authService.js:99-115 | stores and keeps the session record of the user |
| Auth.AuthService.Login | frontend/src/login/authService.js:118-169 | succeeds exactly as `LoginOutcome`; on success only the first match's last login changes and it becomes the session, so the user is logged in; on failure nothing changes |
| Auth.AuthService.Register | frontend/src/login/authService.js:172-249 | rejects as `RegistrationError` without change; on success appends exactly `NewUser` and keeps earlier users and the session |
| Auth.AuthService.IsLoggedIn | frontend/src/login/authService.js:258-260 | logged in exactly when local storage holds a session that `loadCurrentUser` accepts |
| Auth.AuthService.Logout | frontend/src/login/authService.js:252-256 | clears the stored and in-memory session, so the user is not logged in |
| Auth.AuthService.GetAllUsers | frontend/src/login/authService.js:268-280 | lists the users through `PublicView`, which has no password |
| Auth.AuthService.UpdateProfile | frontend/src/login/authService.js:283-325 | an unknown id is rejected without change; otherwise only that user's whitelisted fields change, and the session, in memory and in storage, is refreshed only when it belongs to that id and is otherwise left as it was |
| Auth.AuthService.ChangePassword | frontend/src/login/authService.js:328-366 | rejects as `PasswordChangeError` without change; on success only that user's password changes |
| Auth.AuthService.ImportUsersData | frontend/src/login/authService.js:374-386 | only a parsed object with a `users` array replaces the database; anything else fails without change |
| Auth.AuthService.ResetToDefaults | frontend/src/login/authService.js:389-396 | the database becomes the defaults and there is no session |
| RohitPage.InitialIdsArePositions | frontend/src/pages/rohitpage.jsx:30-97 | the six initial conferences have ids 1 to 6 in order |
| RohitPage.FilteredConferences | frontend/src/pages/rohitpage.jsx:163-166 | the search keeps exactly the conferences whose lower-cased name or description contains the lower-cased query, each as many times as it occurs, in list order; an empty query keeps all |
| RohitPage.NoResultsExactly | frontend/src/pages/rohitpage.jsx:263-267 | the "no events" note shows exactly when the query is non-empty and nothing matches |
| RohitPage.WithEvent | frontend/src/pages/rohitpage.jsx:125-137 | a created event is appended with id length+1, the modal's icon, name and description, the parsed participants and date, and the fixed labels and tags; earlier events are unchanged, so `id == position + 1` is kept |
| RohitPage.Dashboard.constructor | frontend/src/pages/rohitpage.jsx:7-30 | the page starts with the six conferences, an empty query, a closed modal and a blank event |
| RohitPage.Dashboard.ToggleExpanded | frontend/src/pages/rohitpage.jsx:99-104 | performs `Toggle` on the expanded map |
| RohitPage.Dashboard.HandleSearch | frontend/src/pages/rohitpage.jsx:114-116 | sets the query |
| RohitPage.Dashboard.HandleNewEventClick | frontend/src/pages/rohitpage.jsx:118-120 | opens the modal |
| RohitPage.Dashboard.EditNewEvent | frontend/src/pages/rohitpage.jsx:286-288 | sets the modal's form |
| RohitPage.Dashboard.HandleCreateEvent | frontend/src/pages/rohitpage.jsx:122-141 | creates exactly when name, description, participants and date are all non-empty; it then appends via `WithEvent`, closes the modal and blanks the form; otherwise nothing changes |
| RohitPage.Dashboard.Filtered | frontend/src/pages/rohitpage.jsx:163-166 | an empty query shows the whole list; the result is never longer than the list |
| HemantPage.FilterRows | frontend/src/pages/hemantpage.jsx:107-111 | over any table, the search keeps exactly the matching rows, each as many times as it occurs, in table order; an empty query keeps all |
| HemantPage.FilteredJournals | frontend/src/pages/hemantpage.jsx:107-111 | the search keeps exactly the rows whose lower-cased author, title or publisher contains the lower-cased query, in table order; an empty query returns all 8 rows |
| HemantPage.NoResultsExactly | frontend/src/pages/hemantpage.jsx:245-249 | the "no journals" note shows exactly when the query is non-empty and no row matches |
| HemantPage.SearchIgnoresCase | frontend/src/pages/hemantpage.jsx:58 | "Shruti" finds the row whose author is "SHRUTI JALAPUR" |
| HemantPage.Dashboard.constructor | frontend/src/pages/hemantpage.jsx:10-24 | the page starts with its expanded map and an empty query |
| HemantPage.Dashboard.ToggleExpanded | frontend/src/pages/hemantpage.jsx:26-31 | performs `Toggle` on the expanded map |
| HemantPage.Dashboard.HandleSearch | frontend/src/pages/hemantpage.jsx:41-43 | sets the query |
| HemantPage.Dashboard.Filtered | frontend/src/pages/hemantpage.jsx:107-111 | an empty query shows all 8 rows |

## Left out

- Rendering is not modelled: every `render*Form`, the page layouts, the toast, dark mode, navigation and the alert-only buttons. The field catalogue exists only as JSX. The progress-bar width uses `Math.round` on a float.
- Timers and promises are not modelled. Each operation is one atomic step. The 400 ms reset after submission happens inside `Submit`. The delays in `login`, `register`, `updateProfile` and `changePassword` are dropped. React's bail-out on an unchanged cohort is modelled. Stale closures and strict-mode double effects are not.
- Clock and library results are parameters: `Date.now()`, `toISOString()`, `parseInt`, `toLocaleDateString`, and the `selectedOptions` of a multi-select.
- Stored text is not modelled. Storage holds the values JSON parses to. A draft that fails to parse cannot be represented. The code does not catch that parse error, so there is no fallback to model.
- SubmissionForm.ValidateStep: a list under `publication.title` counts as a failed validation. The code would throw a `TypeError` calling `trim` on it. No handler writes a list under that key.
- SubmissionForm.EditAuthor: requires an index in range. The code throws a `TypeError` for any other index.
- SubmissionForm.Submit: requires a selected cohort. The form, and so its submit button, is rendered only when a cohort is chosen (`formformat.jsx:969-975`).
- SubmissionForm.FormsFormat.HandleSubmit: requires the last step. The submit button renders only there (`formformat.jsx:996-1005`), and Next and Back are plain buttons. Implicit submission by pressing Enter in a field is not modelled.
- File inputs are not modelled. `handleInputChange('proof.file', e.target.files[0])` (`formformat.jsx:339`, `438`, `694`, `776`, `897`) stores a `File` object, which a `FieldValue` cannot hold. Its draft would store `{}` in its place, because `JSON.stringify` writes a `File` that way.
- Auth.AuthService.Login: reads the clock once (`now`). The code reads it twice, for `lastLogin` (`authService.js:143`) and for the session's `loginTime` (`authService.js:108`). So the model gives both the same time.
- Auth.DefaultUsers: reads the clock once (`now`). The code reads it once per default user (`authService.js:21`, `authService.js:33`). So the model gives both users the same `registeredAt`.
- Ids are unbounded integers. In the code they are JavaScript numbers, so `Math.max(...) + 1` stops being exact above 2^53.
- Text.Lower: maps only ASCII upper-case letters. Unicode case mapping is not modelled.
- String lengths count Unicode scalar values, not UTF-16 code units. This matters for password lengths with characters outside the BMP.
- `login`'s "database not found or corrupt" branch is not modelled. It cannot be reached here: every assignment to the in-memory database goes through a shape check, so the `users` array is always present.
- Auth.AsUsersDb: a parsed document is typed, so an imported object without `settings`, or with malformed users, is not represented.
- Storage write failures are not modelled, such as a full quota caught in `saveUsers` / `saveCurrentUser`.
- `sessionTimeout` and `maxLoginAttempts` are kept as settings but never consulted, as in the code.
- `exportUsersData` (JSON text), `dumpUsers` and `getCurrentUser` (plain getters) are not modelled. `isLoggedIn` is `IsLoggedIn`.
- HemantPage.Dashboard.Filtered, RohitPage.Dashboard.Filtered: state only the empty-query case and length. The full filter properties are stated on `FilteredJournals` / `FilteredConferences`.
- Other files are not part of this model: `login.jsx` (UI wrapper), `ElnaPage.jsx` (chart data), `Sidebar.jsx`, `App.jsx`, and the chart configuration in `hemantpage.jsx`.

## Findings

| source | as written | input that shows it | evidently intended | confidence | as-written member | corrected member |
|---|---|---|---|---|---|---|
| frontend/src/forms/formformat.jsx:13-34 | The autosave effect is declared first and depends on `selectedCohort`. On a cohort switch it runs with the new cohort but the old form, before the load effect. So the previous cohort's form is written to the new cohort's draft and then loaded back. | Choose journal, type a title, then choose conference. The conference form shows the journal's title, and the conference's own draft is overwritten. | The new cohort's own stored draft is loaded and nothing carries over. | medium, not executed | SubmissionForm.SelectAsWrittenCarriesForm | SubmissionForm.Select |
| frontend/src/login/authService.js:219 | `Math.max(...[])` is `-Infinity`, so a registration into an empty users array gets id `-Infinity`. So does the next one. | Import `{"users": [], ...}`, then register two users. | The first id is 1, and ids stay distinct. | high, not executed | Auth.EmptyListIdsRepeat | Auth.NextId |
