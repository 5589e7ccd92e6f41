# reforma — a Dafny model

This project models the data path of the "reforma" site. The site follows one renovation project, identified by a fixed UUID. The project is an aggregate: a header (title, description, dates, progress, total invested), an ordered list of phases and an ordered list of images. The model covers four parts:

- **The `/api/reforma` route** (`reforma_route.dfy`).
  - GET reads the header with `.single()` and reads both child tables ordered by `created_at`. It builds the response and normalises `total_invested` with `parseFloat(...) || 0`.
  - PUT runs a fixed sequence of store calls. It updates the header in place, then deletes and re-inserts the phases, then deletes and re-inserts the images, then re-reads everything without an ordering clause.
  - The store is the class `Store`, holding the three tables as sequences. Ids the database generates come from a counter, and `created_at` comes from a clock. Whether each store call succeeds is an explicit input. `Store.Put` is proved against the function `PutSpec`, and the lemmas about PUT are stated on `PutSpec`.
- **The admin dashboard** (`admin_dashboard.dfy`). The class `Dashboard` holds the baseline, the draft and the form inputs. Its methods are the component's handlers. The pure draft edits (append, remove by id, update by id) and the load and save mappings are functions with lemmas.
- **The login route** (`login_route.dfy`): a pure decision that gives 400, 200 with the session cookie, 401 or 500.
- **The public page** (`home_page.dfy`): phase groups by status, the investment fallback, the countdown badge and which sections render.

`js.dfy` models the JavaScript semantics the code relies on:
- truthiness and `||`;
- `trim`;
- `parseFloat` and `Number` on decimal strings, as a scanner over the decimal literal grammar;
- NaN becoming `null` in JSON.

`seqs.dfy` holds `filter` and a stable `ORDER BY`.

Proved behaviours of the code as written:
- A dashboard save sends camelCase keys, but PUT reads only snake_case keys. The stored investment therefore becomes 0, and the stored dates and progress stay unchanged (`AdminDashboard.DashboardSaveHeader`, `AdminDashboard.DashboardSaveThenGet`).
- When GET fails it answers `{ error }`. That is a truthy object with no `phases`, so the public page throws while rendering instead of showing its "no data" card (`HomePage.ErrorReplyCrashesPage`).

## Model

| member | source | states |
|---|---|---|
| Js.ParseFloatOrZero | app/api/reforma/route.ts:44 | the value `parseFloat` gives, and 0 in place of NaN |
| Js.ParseFloat | app/api/reforma/route.ts:44 | a number is returned as it is; a string is read by `ParseFloatString`; `undefined`, `null`, booleans, NaN and nested values are NaN |
| Js.ParseFloatString | app/api/reforma/route.ts:44 | NaN exactly when the string, after its leading whitespace, does not start a decimal literal; otherwise the value of the numeral the scanner reads there |
| Js.ScanDecimal | app/api/reforma/route.ts:44 | a literal found by the scanner has positive length, lies within the string, has parts made of digits, and is negative exactly when the string starts with '-' |
| Js.ScanExponent | app/api/reforma/route.ts:44 | the exponent part read has digits only and lies within the string, and when present starts with `e` or `E`; it is absent (no digits, length 0) exactly when the string does not start with `e` or `E` followed by a digit, after an optional sign |
| Js.ScanMantissaPart | app/api/reforma/route.ts:44 | what is read before and after the '.' is made of digits only, and the part has positive length within the string |
| Js.ScanUnsigned | app/api/reforma/route.ts:44 | a literal read after the sign carries that sign, has digit-only parts and positive length within the string |
| Js.ScanExponentOf | app/api/reforma/route.ts:44 | `e` or `E`, an optional sign and digits followed by a non-digit are read as exactly that sign and those digits, with length 1 + the sign's length + the number of digits |
| Js.ScanExponentAbsent | app/api/reforma/route.ts:44 | without a leading `e` or `E`, or with one that no digit follows after an optional sign (`"e"`, `"e+"`, `"ex"`), there is no exponent part: no digits and length 0 |
| Js.ScanSigned | app/api/reforma/route.ts:44 | a leading '+' or '-' is read once: the literal after it is recorded with that sign and the sign's length added |
| Js.ScanMantissaInteger | app/api/reforma/route.ts:44 | digits followed by neither a digit nor '.' are read as the integer digits alone, with no fraction and their own length |
| Js.ScanMantissaFraction | app/api/reforma/route.ts:44 | digits, '.', digits, then a non-digit are read as the digits before and after the '.', with length the sum of the two plus one |
| Js.ScanMantissa | app/api/reforma/route.ts:44 | a sign, digits with an optional fraction, then a tail that extends neither: the scanner records exactly that sign and those digits, the exponent the tail starts with, and the sum of their lengths |
| Js.ScanWithoutExponent | app/api/reforma/route.ts:44 | when the rest starts no digit, no '.' after an integer, and no exponent part (an `e` not followed by a digit is allowed), the literal recorded is the sign and digits alone, without an exponent, with their length |
| Js.ScanLiteralWithExponent | app/api/reforma/route.ts:44 | a sign, digits with an optional fraction and `e<sign><digits>` followed by a non-digit: the scanner records every one of those parts and the whole literal's length |
| Js.ParseFloatOfScan | app/api/reforma/route.ts:44 | on a string without leading whitespace in which the scanner finds a literal, `parseFloat` is that literal's value |
| Js.NumberOfScan | components/admin-dashboard.tsx:63 | on a string without surrounding whitespace in which the scanner finds a literal, `Number` is that literal's value when it covers the whole string, and NaN otherwise |
| Js.ParseFloatLongestPrefix | app/api/reforma/route.ts:44 | `parseFloat` of a sign, digits with an optional fraction and a rest that does not extend the literal is the literal's signed value; the rest is ignored, an incomplete exponent such as `"12e+"` included |
| Js.ParseFloatWithExponent | app/api/reforma/route.ts:44 | the same with `e<sign><digits>` after the digits: the value is scaled by that power of ten |
| Js.NumberOfLiteral | components/admin-dashboard.tsx:63 | `Number` of a literal alone is its value; a literal followed by a rest that does not end in whitespace is NaN |
| Js.ScanDecimalNoneIff | app/api/reforma/route.ts:44 | the scanner finds no literal exactly when the string does not start with an optional sign followed by a digit or by '.' and a digit |
| Js.ParseFloatOrZeroIdempotent | app/api/reforma/route.ts:80 | the value PUT stores, read back by GET's `parseFloat` with its 0 fallback, is the same number |
| Js.FixedPointParses | app/api/reforma/route.ts:44 | a numeric column read back as `digits.digits` parses to exactly its decimal value, with both `parseFloat` and `Number`, and the 0 fallback of GET's `parseFloat` keeps that value |
| Js.NonNumericFallsBackToZero | app/api/reforma/route.ts:44 | a string whose first non-whitespace character is not a digit, a sign or '.' (a blank string included) gives 0 |
| Js.NumberOfString | components/admin-dashboard.tsx:361 | `Number(s)` is 0 for a blank string; it is a number exactly when the literal the scanner reads covers the whole trimmed string, and then that literal's value; NaN otherwise |
| Js.Trim | components/admin-dashboard.tsx:111 | the result is the slice of the string between its leading and trailing whitespace: everything before and after it is whitespace, and neither of its ends is |
| Js.Truthy | components/admin-dashboard.tsx:55 | every value is truthy except `undefined`, `null`, `false`, `0`, NaN and `""` |
| Js.Or | components/admin-dashboard.tsx:60-63 | JavaScript's logical or yields its first operand when that is truthy and its second otherwise |
| Js.TrimEmptyIffBlank | components/admin-dashboard.tsx:111 | `!s.trim()` holds exactly when every character is whitespace |
| Js.JsonValue | components/admin-dashboard.tsx:89 | JSON keeps every value except NaN, which becomes null |
| Reforma.ErrorBody | app/api/reforma/route.ts:63 | an error reply's body is `{ error: message }`: no id, no lists, only the message under `error` |
| Seqs.Filter | components/admin-dashboard.tsx:178 | the result holds exactly the elements satisfying the predicate, none added, and is no longer than the input |
| Seqs.FilterConcat | components/home-page.tsx:86 | filtering distributes over concatenation, so relative order is kept |
| Seqs.SortByKey | app/api/reforma/route.ts:24 | `ORDER BY created_at ASC` yields a permutation of the rows that is sorted by the key |
| Seqs.SortByKeyOfSorted | app/api/reforma/route.ts:33 | rows already in key order are returned as they are |
| Seqs.SortedFilter | app/api/reforma/route.ts:29-33 | `WHERE p ORDER BY key` returns only rows satisfying `p`, drawn from the table, sorted, each as often as in the table |
| ReformaRoute.SingleHeader | app/api/reforma/route.ts:11-17 | `.single()` succeeds exactly when one row has the project id, and returns that row |
| ReformaRoute.DbValid | app/api/reforma/route.ts:87-114 | the store invariant: generated ids below the counter, timestamps in the past, rows in insertion order, which is `created_at` order |
| ReformaRoute.OrderedPhaseRows | app/api/reforma/route.ts:29-35 | the result is the project's phase rows and only those, sorted by `created_at` |
| ReformaRoute.OrderedImageRows | app/api/reforma/route.ts:20-26 | the result is the project's image rows and only those, sorted by `created_at` |
| ReformaRoute.PhasesOut | app/api/reforma/route.ts:51-57 | the projection keeps length and order and maps each row to `{id,name,percentage,status}` |
| ReformaRoute.ImagesOut | app/api/reforma/route.ts:45-50 | the projection keeps length and order and maps each row to `{id,url,caption}` |
| ReformaRoute.Assemble | app/api/reforma/route.ts:37-58 | the response copies the header columns, normalises `total_invested` and carries both child lists |
| ReformaRoute.GetReply | app/api/reforma/route.ts:6-64 | 500 with the load error exactly when a query fails or there is no single header; otherwise 200 with the project's ordered children |
| ReformaRoute.GetReadsOnlyProjectRows | app/api/reforma/route.ts:11-35 | rows of other projects cannot change what GET returns |
| ReformaRoute.Assign | app/api/reforma/route.ts:74-79 | an undefined body key is dropped by JSON, so the column keeps its value; any other value overwrites it |
| ReformaRoute.UpdatedHeader | app/api/reforma/route.ts:72-82 | every snake_case column follows `Assign`; the investment becomes the parsed number or 0; `updated_at` becomes now; the id is kept |
| ReformaRoute.UpdateHeaders | app/api/reforma/route.ts:83 | the update keeps every row and every id, and rewrites only rows with the project id |
| ReformaRoute.NewPhaseRows | app/api/reforma/route.ts:90-96 | the inserted rows hold the submitted name, percentage and status in order, with fresh ids and the project id |
| ReformaRoute.NewImageRows | app/api/reforma/route.ts:105-110 | the inserted rows hold the submitted url and caption in order, with fresh ids and the project id |
| ReformaRoute.PhaseStep | app/api/reforma/route.ts:87-100 | only the phase table and the counters change; the step aborts exactly when a non-empty list fails to insert; other projects' rows stay; after a working delete no old project row is left |
| ReformaRoute.ImageStep | app/api/reforma/route.ts:102-114 | the same for the image table |
| ReformaRoute.Reload | app/api/reforma/route.ts:116-146 | 500 with the save error when the header is missing; a failed child query reads as `[]` |
| ReformaRoute.PutSpec | app/api/reforma/route.ts:67-150 | 200 or 500, with the save error on 500; a bad body or failed update changes nothing; otherwise the header update stays applied; 200 exactly when no checked insert fails and the reload finds the header |
| ReformaRoute.Store.Get | app/api/reforma/route.ts:6-64 | the handler answers `GetReply` of the current tables |
| ReformaRoute.Store.constructor | app/api/reforma/route.ts:6-17 | a store seeded with a state satisfying the invariant holds exactly that state |
| ReformaRoute.Store.Put | app/api/reforma/route.ts:67-150 | the handler leaves the tables and answers exactly as `PutSpec` says, and keeps the store invariant |
| ReformaRoute.Store.UpdateHeader | app/api/reforma/route.ts:72-85 | only the header table changes, by `UpdateHeaders` |
| ReformaRoute.Store.ReplacePhases | app/api/reforma/route.ts:87-100 | the phase table changes by the delete-then-insert step, and the store invariant is kept |
| ReformaRoute.Store.ReplaceImages | app/api/reforma/route.ts:102-114 | the image table changes by the delete-then-insert step, and the store invariant is kept |
| ReformaRoute.PhaseStepValid | app/api/reforma/route.ts:87-100 | the phase step keeps ids below the counter, timestamps in the past and rows in `created_at` order |
| ReformaRoute.ImageStepValid | app/api/reforma/route.ts:102-114 | the image step keeps the same invariant |
| ReformaRoute.PutPreservesValid | app/api/reforma/route.ts:67-114 | every PUT keeps the store invariant, whichever call fails |
| ReformaRoute.PutAbortsInOrder | app/api/reforma/route.ts:85-113 | a bad body or a failed update changes nothing; a failed phase insert leaves the header updated and the old phases deleted (when that delete worked) and the images untouched; a failed image insert leaves the earlier steps applied |
| ReformaRoute.ReplacedRows | app/api/reforma/route.ts:87-97 | after delete-all and insert, the project's rows are exactly the inserted ones and the other rows are the old ones |
| ReformaRoute.PutPhasesFromPhaseStep | app/api/reforma/route.ts:87-114 | the image step does not touch the phase table |
| ReformaRoute.PutReplacesPhases | app/api/reforma/route.ts:87-100 | the project's phases become the submitted ones in order, with new ids; no old row survives; other projects' phases are unchanged; a missing or empty list leaves none |
| ReformaRoute.PutReplacesImages | app/api/reforma/route.ts:102-114 | the same replace semantics for images |
| ReformaRoute.NewPhaseRowsIgnoreIds | app/api/reforma/route.ts:91-96 | inserted phase rows do not depend on the submitted ids |
| ReformaRoute.NewImageRowsIgnoreIds | app/api/reforma/route.ts:106-110 | inserted image rows do not depend on the submitted ids |
| ReformaRoute.PutIgnoresSubmittedIds | app/api/reforma/route.ts:89-114 | two bodies that differ only in child ids lead to the same PUT outcome |
| ReformaRoute.UpdateHeadersConcat | app/api/reforma/route.ts:83 | the row-wise update distributes over concatenation |
| ReformaRoute.FilterUpdateHeaders | app/api/reforma/route.ts:72-83 | the project's header rows after the update are exactly the updated project rows |
| ReformaRoute.SingleHeaderAfterUpdate | app/api/reforma/route.ts:117 | the update neither creates nor removes the header, so the reload's `.single()` finds the updated row |
| ReformaRoute.OrderedRowsArePhysical | app/api/reforma/route.ts:119-121 | on a valid store, the reload without ordering returns the same lists as GET's ordered queries |
| ReformaRoute.ReloadIsGet | app/api/reforma/route.ts:116-146 | on a valid store holding the header, the fault-free reload answers exactly what GET answers |
| ReformaRoute.PutOkIsReload | app/api/reforma/route.ts:116-146 | a PUT answering 200 answers with its reload, which found the header |
| ReformaRoute.PutReplyMatchesGet | app/api/reforma/route.ts:116-146 | a PUT that answers 200 answers what GET would answer on the store it leaves |
| ReformaRoute.PutThenGet | app/api/reforma/route.ts:67-146 | after a fault-free PUT, GET returns the submitted phases and images in order, the normalised investment and every header column the body sets |
| ReformaRoute.PutIdempotent | app/api/reforma/route.ts:67-146 | saving the same body twice is saving it once: GET answers the same phases and images up to ids and the same value in every header column |
| AdminDashboard.LoadedInvestment | components/admin-dashboard.tsx:63 | a string investment goes through `Number`; anything else is the first truthy of `total_invested`, `totalInvested` and 0 |
| AdminDashboard.MapResponse | components/admin-dashboard.tsx:55-66 | a body is mapped only when it has an id; snake_case keys win when truthy; progress defaults to 0; missing lists become `[]` |
| AdminDashboard.Serialize | components/admin-dashboard.tsx:89 | the request body carries only camelCase header keys, with NaN sent as null |
| AdminDashboard.DraftRoundTrip | components/admin-dashboard.tsx:55-89 | mapping the body a save sends gives back the draft, when its numbers are numbers |
| AdminDashboard.LoadOfGetReply | components/admin-dashboard.tsx:52-68 | a draft loaded from a successful GET holds the stored title and description, the stored dates and progress when truthy (otherwise no date and progress 0), the normalised investment and the ordered children |
| AdminDashboard.DashboardSaveHeader | app/api/reforma/route.ts:74-80 | the header written by a dashboard save has investment 0 and keeps the stored dates and progress |
| AdminDashboard.DashboardSaveThenGet | components/admin-dashboard.tsx:80-95 | after a fault-free dashboard save, GET shows the draft's phases and images, investment 0 and the old dates and progress |
| AdminDashboard.RemoveImageById | components/admin-dashboard.tsx:178 | every image with that id is dropped and every other image is kept |
| AdminDashboard.RemovePhaseById | components/admin-dashboard.tsx:211 | every phase with that id is dropped and every other phase is kept |
| AdminDashboard.SetPhasePercentage | components/admin-dashboard.tsx:220 | only the percentage of phases with the id changes; length, order, ids, names and statuses are kept |
| AdminDashboard.SetPhaseStatus | components/admin-dashboard.tsx:229 | only the status of phases with the id changes; everything else is kept |
| AdminDashboard.RemoveAbsentImage | components/admin-dashboard.tsx:178 | removing an id nobody carries changes nothing |
| AdminDashboard.RemoveAppendedImage | components/admin-dashboard.tsx:143 | removing a freshly appended image undoes the append |
| AdminDashboard.RemoveImageKeepsOrder | components/admin-dashboard.tsx:178 | removal keeps the relative order of the remaining images |
| AdminDashboard.RemoveImageCount | components/admin-dashboard.tsx:178 | removal takes out every occurrence of the id and no other image |
| AdminDashboard.RemoveAppendedPhase | components/admin-dashboard.tsx:198 | removing a freshly appended phase undoes the append |
| AdminDashboard.RemovePhaseIdempotent | components/admin-dashboard.tsx:211 | removing an id twice is removing it once |
| AdminDashboard.RemovePhaseKeepsOrder | components/admin-dashboard.tsx:211 | removal keeps the relative order of the remaining phases |
| AdminDashboard.RemovePhaseCount | components/admin-dashboard.tsx:211 | removal takes out every occurrence of the id and no other phase |
| AdminDashboard.SetPercentageLastWins | components/admin-dashboard.tsx:215-222 | a later percentage edit of the same phase overrides an earlier one |
| AdminDashboard.SetPercentageCommutes | components/admin-dashboard.tsx:215-222 | percentage edits of different phases commute |
| AdminDashboard.SetAbsentPhase | components/admin-dashboard.tsx:215-231 | an edit of an absent id changes nothing |
| AdminDashboard.SetStatusLastWins | components/admin-dashboard.tsx:224-231 | a later status edit of the same phase overrides an earlier one |
| AdminDashboard.Dashboard.constructor | components/admin-dashboard.tsx:37-45 | the component starts loading, with no data, no draft, empty form inputs and status "pendente" |
| AdminDashboard.Dashboard.Load | components/admin-dashboard.tsx:49-78 | baseline and draft both take the mapped body when it has an id, and stay unchanged otherwise |
| AdminDashboard.Dashboard.Save | components/admin-dashboard.tsx:80-107 | the draft is sent unchanged and kept; only an ok response replaces the baseline, with the raw response body; no draft means nothing is sent |
| AdminDashboard.Dashboard.UploadImage | components/admin-dashboard.tsx:109-164 | an image is appended only with a file, a non-blank caption and a successful upload; the caption is stored untrimmed, then reset to "" |
| AdminDashboard.Dashboard.RemoveImage | components/admin-dashboard.tsx:166-184 | the draft drops the image unless the delete request throws, whatever its status |
| AdminDashboard.Dashboard.AddPhase | components/admin-dashboard.tsx:186-204 | a non-empty name appends one phase at the end and resets the form to "", 0, "pendente"; otherwise nothing changes |
| AdminDashboard.Dashboard.RemovePhase | components/admin-dashboard.tsx:206-213 | the draft's phases lose that id |
| AdminDashboard.Dashboard.PhasePercentageChange | components/admin-dashboard.tsx:215-222 | the draft's phases take the new percentage for that id |
| AdminDashboard.Dashboard.PhaseStatusChange | components/admin-dashboard.tsx:224-231 | the draft's phases take the new status for that id |
| AdminDashboard.Dashboard.EditTitle | components/admin-dashboard.tsx:295 | only the draft's title changes, to the input string |
| AdminDashboard.Dashboard.EditDescription | components/admin-dashboard.tsx:304 | only the draft's description changes |
| AdminDashboard.Dashboard.EditStartDate | components/admin-dashboard.tsx:316 | only the draft's start date changes |
| AdminDashboard.Dashboard.EditEndDate | components/admin-dashboard.tsx:326 | only the draft's end date changes |
| AdminDashboard.Dashboard.EditProgress | components/admin-dashboard.tsx:341-346 | the draft's progress becomes `Number(value)` |
| AdminDashboard.Dashboard.EditTotalInvested | components/admin-dashboard.tsx:358-363 | the draft's investment becomes `Number(value)` |
| AdminDashboard.Dashboard.SetNewImageCaption | components/admin-dashboard.tsx:403 | only the caption input changes |
| AdminDashboard.Dashboard.SetNewPhaseName | components/admin-dashboard.tsx:468 | only the phase name input changes |
| AdminDashboard.Dashboard.SetNewPhaseStatus | components/admin-dashboard.tsx:477 | only the phase status input changes, to one of the two statuses |
| AdminDashboard.Dashboard.SetNewPhasePercentage | components/admin-dashboard.tsx:492 | only the phase percentage input changes |
| LoginRoute.SessionCookie | app/api/auth/login/route.ts:17-22 | the cookie is `admin_token=authenticated`, httpOnly, sameSite lax, 86400 seconds, and secure only in production |
| LoginRoute.Login | app/api/auth/login/route.ts:6-30 | 500 for an unreadable body; 400 when a field is missing or falsy; 200 with the cookie exactly for the exact pair; 401 otherwise; a cookie only with 200 |
| LoginRoute.OnlyExactCredentialsLogIn | app/api/auth/login/route.ts:3-14 | a session opens exactly for `admin` / `admin2025@` |
| LoginRoute.NoTrimNoCaseFolding | app/api/auth/login/route.ts:14 | any non-empty string pair other than the configured one, such as one with surrounding spaces or another letter case, is refused with 401 |
| LoginRoute.MissingFieldBeforeComparison | app/api/auth/login/route.ts:10-12 | an empty or missing password is 400, for any user name |
| HomePage.Concluded | components/home-page.tsx:86 | the concluded group is exactly the phases with status "concluida" |
| HomePage.Pending | components/home-page.tsx:87 | the pending group is exactly the phases with status "pendente" |
| HomePage.GroupsDisjoint | components/home-page.tsx:86-87 | no phase is in both groups |
| HomePage.GroupsCoverAll | components/home-page.tsx:86-87 | when every status is one of the two, the group sizes add up to the number of phases |
| HomePage.GroupsKeepOrder | components/home-page.tsx:86-87 | each group keeps the order of the full list |
| HomePage.StatusChangeMovesPhase | components/home-page.tsx:86 | a phase marked "concluida" in the dashboard is in the concluded group and not in the pending one |
| HomePage.InvestmentShown | components/home-page.tsx:84 | a number (NaN included) is shown as it is; anything else is shown as 0 |
| HomePage.BadgeFor | components/home-page.tsx:113 | the countdown shows exactly when days remain; otherwise "Concluído" |
| HomePage.GroupSection | components/home-page.tsx:148 | a group renders only inside the phase block and only when it is non-empty |
| HomePage.GallerySection | components/home-page.tsx:220 | the gallery renders exactly when the body has a non-empty image list, and shows that list |
| HomePage.Render | components/home-page.tsx:53-240 | spinner while loading; fallback card without data; a throw when the body has no phase list; otherwise the page, with phase sections and gallery guarded by list sizes |
| HomePage.PageOfGetReply | components/home-page.tsx:84-220 | for a successful GET the page shows the normalised investment, groups the ordered phases by status and shows the gallery exactly when the project has images |
| HomePage.ErrorReplyCrashesPage | components/home-page.tsx:64-86 | a failed GET's error body gets past the no-data check and makes the page throw |

## Left out

- Transport is not modelled: `fetch`, `async`, `NextResponse` and the Supabase query builder. Each store call is a step on the store class, and its success is an input.
- The non-atomicity of PUT is captured only through per-call fault inputs; concurrent requests interleaving with a PUT are not modelled.
- The clock and randomness are parameters: `new Date().toISOString()` is the parameter `now`, and `crypto.randomUUID()` is the parameter `freshId`. The model does not prove that these ids are fresh; `AdminDashboard.RemoveAppendedImage` takes freshness as a precondition.
- Seqs.SortByKey: SQL leaves the order of rows with equal `created_at` unspecified. The model breaks ties by insertion order, and so do `ReformaRoute.PutThenGet` and `ReformaRoute.OrderedRowsArePhysical`. Every row of one insert shares one `now()`.
- Js.ParseFloat: an array or object argument is read as NaN. JavaScript first converts the argument to a string, so an array such as `total_invested: [12]` in a PUT body gives 12. The body model keeps such a value as one opaque `Obj` with no string form.
- Numbers are exact reals. `parseFloat` and `Number` read decimal literals with an exponent. `Infinity`, hexadecimal, binary and octal literals, `-0`, and rounding to binary64 are not modelled.
- The body of a request or response is a fixed set of keys. A child list that is present but not an array is read as missing, and the model does not capture that PUT would throw on one with a positive `length`. Nested values such as arrays under header keys are one opaque `Obj`.
- Phase percentages are integers. The range input always yields an integral string, and the stored column is taken to be integral.
- Rendering is not modelled: JSX, styling, `alert`, upload progress messages, `setTimeout`, tabs, the `saving` and `uploadingImage` flags, `toLocaleString`, `toLocaleDateString` and `Intl.NumberFormat`. `daysRemaining` is an input computed outside the model, with `None` for NaN.
- AdminDashboard.Dashboard.Save: the raw PUT response body becomes the baseline, but nothing in the component reads the baseline, so no property of it is stated beyond that assignment.
- AdminDashboard.Dashboard.UploadImage and AdminDashboard.Dashboard.RemoveImage: the upload endpoint, the blob delete endpoint and their bodies are not part of this model. Only their outcome (a URL, or a thrown error) is an input.
- The header inputs are rendered only once a draft exists, so the edit methods require one.
- The logout route, the delete route, the admin page's session gate, the login form, the page transition loader and the browser Supabase client are not part of this model.
- The project's header row is never created by these routes: the store is seeded through the `Store` constructor.
- ReformaRoute.Reload: the re-read of PUT has no ordering clause, and SQL then promises no row order. The model assumes it returns rows in insertion order, which the store invariant `DbValid` ties to `created_at` order. `ReformaRoute.OrderedRowsArePhysical`, `ReformaRoute.ReloadIsGet` and `ReformaRoute.PutReplyMatchesGet` rest on that assumption, and so do the lemmas built on them.
- ReformaRoute.PutThenGet: header columns are stored exactly as sent. The database's type coercion is not modelled: a date-only string read back as a date-time, a numeric column read back as a string. Its rejection of a value the column type refuses, such as `progress_percentage: "abc"`, is not modelled either; that would make the update fail. `total_invested` is always stored as a number, so `Js.FixedPointParses` is not connected to the store.
