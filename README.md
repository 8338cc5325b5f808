# Staff management console: a Dafny model of its client-side logic

The console is a browser application for managing staff records: a
paginated, filterable, sortable list, and create, edit and delete forms. It
talks to a REST backend with short-lived access tokens. This project models
the parts of its client that hold logic:

- **the shared HTTP client** (`Api`). The request interceptor attaches
  `Authorization: Bearer <token>` when an access token is stored. The
  response interceptor turns a 401 into one token refresh at a time. Requests
  that fail while the refresh runs wait in a queue; the queue is settled when
  the refresh ends. Every other failure is rejected with a normalised
  message. Promises become events:
  - `OnResponseError` is a failed response;
  - `RefreshSucceeded(token)` and `RefreshFailed(error)` are the end of the
    refresh call;
  - `Coordinator.log` records every request handed to the transport and
    every promise rejected later, in order.
- **the credential store** (`AuthService`): the access token in
  `localStorage`. `BrowserHost` holds the browser globals: the `isClient`
  flag for `typeof window !== "undefined"`, `localStorage` as a map, and the
  last `window.location.href`.
- **the form validators** (`Validators`): ordered checks that return the
  first failing message, and the errors object built from them.
- **the pagination bar** (`Pagination`): the page list with ellipses, the
  null render, and the previous and next buttons.
- **the staff list page** (`StaffListPage`) and **the staff form**
  (`StaffForm`). Each is a class whose fields are the component's React
  state and whose methods are its event handlers. Backend calls are recorded
  in sequences; their outcomes arrive as parameters.
- **the navigation highlight rule** (`Header`) and **`capitalize`**
  (`Formatters`).
- `Text` models the JavaScript string primitives these rely on: `trim`,
  `length` in UTF-16 code units, the `\s` class, `includes`, and ASCII case
  mapping. `StaffTypes` holds the
  record types; `Wrappers` holds `Option` and thrown values.

## Behaviour as written

These behaviours follow from the code as written and are easy to miss. The
model keeps each of them.

- The refresh call `authService.refreshToken()` (src/services/api.ts:92)
  does not exist in src/services/authService.ts. The refresh outcome is
  therefore an input of the model.
- The comment at src/services/api.ts:101 says the original request is
  retried with the new token. The new access token is never stored,
  though. A replay goes through `api(config)`, so the request interceptor
  runs again on axios's copy of the configuration and overwrites
  `Bearer <new token>` with the stored token whenever a non-empty one is
  stored.
  `Api.ReplayedCredentials` and `Api.RefreshReplaysCarry` state which
  credential a replay actually carries.
- `processQueue(null, token)` is called before `api(originalRequest)`
  (src/services/api.ts:99-102). The waiters' `.then` callbacks run only
  after the handler has made that call, so the owner's request is sent
  first and the waiters follow in arrival order
  (`Api.Coordinator.ReplayAll`).
- The `_retry` marker (src/services/api.ts:86) is the only guard against a
  request starting a refresh twice. (The comment at src/services/api.ts:14,
  about preventing infinite refresh loops, sits on `isRefreshing`.) Only
  the request that starts the refresh is marked. Queued requests are replayed
  unmarked, so a waiter that fails with 401 again enters the refresh
  policy again. `RefreshSucceeded` and `RefreshFailed` state that waiters
  keep their marker.
- `validateDob` lets an unparseable, non-empty date through, because every
  comparison with `NaN` is false (`Validators.DobError`).
- The "less than 100 characters" and "less than 20 characters" messages sit
  on inclusive bounds: 100 letters and 20 code units are accepted
  (`Validators.NameLengthBound`, `Validators.ValidateStaffId`).
- The lengths are `.length`, counted in UTF-16 code units, so a character
  above U+FFFF counts twice. Eleven emoji make a staff id too long
  (`Validators.AstralStaffIdIsTooLong`). A single emoji passes the name
  length checks and is refused for its characters
  (`Validators.AstralNameIsTwoUnits`).
- The "Add Staff" link uses a plain prefix test. It is therefore highlighted
  on the edit page of any staff id that starts with `create`
  (`Header.EditPageHighlighting`). For every other id nothing is
  highlighted on an edit page.
- The page state is never clamped to the `total_pages` the server reports
  (src/app/staff/page.tsx:27 and :203), which can shrink after a delete.
  A current page beyond the last one gets an empty window: page 11 of 10
  shows page 1, an ellipsis and page 10 (`Pagination.PageBeyondLast`).
- In `getPageNumbers` the `includes` guards never skip anything: the window
  starts at 2 or later and ends before the last page. The model keeps the
  guards; `Pagination.AppendWindow` proves the skip branch unreachable.

## Model

| member | source | states |
|---|---|---|
| `Api.WithCredentials` | src/services/api.ts:37-43 | with no usable token the headers are unchanged; with one, `Authorization` becomes `Bearer <token>` and every other header keeps its presence and value |
| `Api.AttachableToken` | src/services/api.ts:37-39 | a token is attached exactly when `isAuthenticated` holds, and it is the stored, non-empty access token |
| `Api.BearerRoundTrip` | src/services/api.ts:40 | a server reading RFC 6750 (section 2.1) Bearer credentials recovers the token exactly when the token is a b64token; the client never checks the syntax |
| `Api.Coordinator.AttachToken` | src/services/api.ts:35-43 | the request's headers become `WithCredentials` of the old headers and the attachable token; with no token they are untouched |
| `Api.Coordinator.Dispatch` | src/services/api.ts:79 | `api(config)` logs exactly one send of the request, with the headers the request interceptor leaves on axios's copy of it; the request's own headers are not touched |
| `Api.Coordinator.TearDownSession` | src/services/api.ts:64-66 | both tokens are removed, every other storage entry stays, and the location becomes `/login` |
| `Api.NormalizedMessage` | src/services/api.ts:118-124 | the message is never empty; it is `detail` when non-empty, else `message` when non-empty, else "An error occurred" |
| `Api.SettleAll` | src/services/api.ts:21-28 | settling a queue yields one entry per waiter, in queue order; each entry is that waiter's settlement |
| `Api.ReplayedCredentials` | src/services/api.ts:37-40 | a replay carries `Bearer <stored token>` when a non-empty token is stored, and `Bearer <new token>` only when none (or an empty one) is |
| `Api.RefreshReplaysCarry` | src/services/api.ts:75-79 | after a successful refresh every logged entry, the owner's replay and then the waiters', is a send carrying the credential `ReplayedCredentials` names |
| `Api.Request.constructor` | src/services/api.ts:54 | a new request configuration has the given URL and headers and is not marked `_retry` |
| `Api.Coordinator.constructor` | src/services/api.ts:15-19 | the client starts with no refresh running, an empty queue and an empty log, which satisfies the invariant |
| `Api.Coordinator.SettleOne` | src/services/api.ts:75-79 | one waiter: on resolve its `Authorization` header becomes `Bearer <token>` and exactly one send with the replayed headers is logged; on reject its rejection is logged and its headers stay |
| `Api.Coordinator.ProcessQueue` | src/services/api.ts:21-31 | every waiter is settled in push order (the log grows by exactly `SettleAll` of the queue), each waiter's `Authorization` header ends as `Bearer <token>` (resolve) or its headers stay (reject), and the queue ends empty |
| `Api.Coordinator.OnResponseError` | src/services/api.ts:53-125 | the invariant is kept. A failure outside the 401 policy is rejected with the normalised message and changes nothing. A login or refresh URL tears the session down and rejects with the original error. During a refresh the request is appended to the queue unmarked. Otherwise it is marked `_retry` and becomes the owner of a new refresh. A refresh starts only when none was running |
| `Api.Coordinator.ReplayAll` | src/services/api.ts:94-102 | the owner's replay is logged first and then every waiter's, in arrival order: the log grows by exactly the owner's send and `SettleAll` of the queue. The owner's and every waiter's `Authorization` header becomes `Bearer <token>`, and the queue ends empty |
| `Api.Coordinator.RefreshSucceeded` | src/services/api.ts:86-114 | the owner's request is sent once and then every waiter, each with the token replayed (the log grows by exactly the owner's send and `SettleAll` of the queue). The owner's and the waiters' own `Authorization` headers hold `Bearer <token>`. The queue is empty and no refresh runs afterwards. Nobody's `_retry` marker changes |
| `Api.Coordinator.RefreshFailed` | src/services/api.ts:103-114 | every waiter and then the owner is rejected with the refresh error, in order. Both tokens are removed, the location becomes `/login`, the queue is empty and no refresh runs afterwards |
| `Api.Coordinator.UnauthorizedBurst` | src/services/api.ts:70-87 | scenario, a driver over `OnResponseError`: of several unmarked 401s arriving with no refresh running, exactly the first starts a refresh and every later one is queued, in arrival order |
| `AuthService.GetToken` | src/services/authService.ts:36-41 | a token is returned exactly on the client when `access_token` is stored, and it is the stored value |
| `AuthService.IsAuthenticated` | src/services/authService.ts:55-57 | authenticated exactly when a non-empty access token is stored on the client |
| `AuthService.SetToken` | src/services/authService.ts:27-31 | on the client the token is stored and `getToken` returns it, and authentication then holds exactly for a non-empty token; on the server nothing changes |
| `AuthService.RemoveToken` | src/services/authService.ts:46-50 | afterwards `getToken` is null and the user is signed out; the refresh token and every other entry stay; on the server nothing changes |
| `AuthService.Logout` | src/services/authService.ts:62-64 | the same as `RemoveToken`: the refresh token is left behind, and with no access token stored nothing changes |
| `Wrappers.MessageOf` | src/app/staff/page.tsx:55 | an `Error` shows its own message; any other thrown value shows the fallback |
| `StaffTypes.StatusText` | src/types/staff.ts:3 | the wire spellings "active" and "inactive" correspond one to one to the two statuses |
| `Text.TrimStart` | src/utils/validators.ts:5 | what is dropped is all whitespace, and what is left is empty or starts with a non-space |
| `Text.TrimEnd` | src/utils/validators.ts:5 | what is dropped is all whitespace, and what is left is empty or ends with a non-space |
| `Text.TrimStartIsSuffix` | src/utils/validators.ts:5 | `trimStart` returns a suffix of its input |
| `Text.TrimEndIsPrefix` | src/utils/validators.ts:5 | `trimEnd` returns a prefix of its input |
| `Text.Trim` | src/utils/validators.ts:5-14 | the result is no longer than the input and is empty or starts and ends with a non-space |
| `Text.TrimIsInfix` | src/utils/validators.ts:5-14 | what `trim` returns is its input with an all-space prefix and an all-space suffix removed; since the result neither starts nor ends with a space (`Trim`), the removed parts are the longest ones |
| `Text.TrimStartSkipsSpace` | src/utils/validators.ts:5 | leading whitespace does not change `trimStart` |
| `Text.TrimEndSkipsSpace` | src/utils/validators.ts:5 | trailing whitespace does not change `trimEnd` |
| `Text.TrimStartAppend` | src/utils/validators.ts:5 | `trimStart` of a concatenation keeps the second part whole once the first part has a non-space |
| `Text.TrimIgnoresPadding` | src/utils/validators.ts:5-14 | whitespace added on either side never changes what `trim` returns |
| `Text.IncludesAt` | src/services/api.ts:61-62 | a part occurring at any offset makes `includes` true |
| `Text.IncludesOccurs` | src/services/api.ts:61-62 | `includes` is true only when the part occurs at some offset; with `IncludesAt`, `includes` holds exactly when the part is a substring |
| `Text.Utf16Length` | src/utils/validators.ts:5 | `.length` counts one or two code units per character: one character above U+FFFF counts 2 and any other 1; the length equals the number of characters exactly when none lies above U+FFFF, and twice that number exactly when all do |
| `Text.Utf16LengthAppend` | src/utils/validators.ts:5 | `.length` of a concatenation is the sum of the parts' lengths, so every string's length is the sum of its characters' units |
| `Text.Upper` | src/utils/formatters.ts:51 | `toUpperCase` keeps the length and maps each character by the ASCII case rule |
| `Text.Lower` | src/utils/formatters.ts:51 | `toLowerCase` keeps the length and maps each character by the ASCII case rule |
| `Validators.ValidateName` | src/utils/validators.ts:4-18 | a name passes exactly when its trimmed form is 2 to 100 UTF-16 code units long and holds only letters and whitespace; otherwise the result is one of the four name messages |
| `Validators.NameChecksInOrder` | src/utils/validators.ts:5-16 | each of the four messages is returned exactly when the earlier checks pass and its own check fails |
| `Validators.AstralNameIsTwoUnits` | src/utils/validators.ts:8-15 | a name of one emoji is two code units long, so it passes both length checks and is refused for its characters |
| `Validators.LettersAndSpacesLength` | src/utils/validators.ts:14 | a string of ASCII letters and whitespace has exactly one code unit per character |
| `Validators.NameIgnoresPadding` | src/utils/validators.ts:5-14 | whitespace around a name never changes the verdict |
| `Validators.NameLengthBound` | src/utils/validators.ts:11-13 | for a name of letters the bound is inclusive: 2 to 100 letters pass, so 100 passes and 101 fails |
| `Validators.ValidateStaffId` | src/utils/validators.ts:23-31 | "required" exactly when the trimmed id is empty, "too long" exactly when it exceeds 20 UTF-16 code units, and a pass exactly for 1 to 20 code units |
| `Validators.AstralStaffIdIsTooLong` | src/utils/validators.ts:27-29 | an id of eleven emoji is 22 code units long and gets the "too long" message |
| `Validators.StaffIdIgnoresPadding` | src/utils/validators.ts:24-27 | whitespace around an id never changes the verdict |
| `Validators.ValidateDob` | src/utils/validators.ts:36-57 | the decrementing age computation answers exactly as the 18th-birthday rule `DobError` does: empty is required, an unparseable date passes, and a date passes once the 18th birthday is reached |
| `Validators.ValidateSalary` | src/utils/validators.ts:62-72 | `NaN` gives "must be a valid number" exactly, a negative value gives "cannot be negative" exactly, and zero and above pass exactly |
| `Validators.Collect` | src/utils/validators.ts:90-104 | a key exists for a field exactly when its verdict is a message, and holds that message; `status` never appears; the object is empty exactly when all four pass |
| `Validators.ValidateStaffForm` | src/utils/validators.ts:84-105 | filling the object field by field yields `Collect` of the four validators' verdicts |
| `Validators.PassingFormHasSalary` | src/utils/validators.ts:62-72 | a form with no errors has a salary that parsed to a number of at least zero |
| `Pagination.GetPageNumbers` | src/components/staff/Pagination.tsx:20-55 | for any inputs, the current page out of range included, the loops build exactly `PageList`; the list is `WellFormed`: strictly increasing, within 1..totalPages, at most 7 entries, 1..totalPages up to 5 pages; beyond that page 1 first, the last page last, ellipses only right after page 1 or right before the last page and never two in a row, the numbered entries exactly page 1, the last page and the window `max(2, currentPage - 1)`..`min(totalPages - 1, currentPage + 1)`. For a current page in range it is listed, with an ellipsis after page 1 exactly when `currentPage > 3` and one before the last page exactly when `currentPage < totalPages - 2` |
| `Pagination.AssembleLong` | src/components/staff/Pagination.tsx:28-51 | beyond five pages the pushes build exactly `PageList` (page 1, optional ellipsis, window, optional ellipsis, last page), the `includes` guards skipping nothing |
| `Pagination.PageRun` | src/components/staff/Pagination.tsx:25-27 | the run from `lo` to `hi` has `max(0, hi - lo + 1)` entries, the k-th being page `lo + k` |
| `Pagination.PageListWellFormed` | src/components/staff/Pagination.tsx:20-55 | the list `PageList` describes has every property `WellFormed` names, for any current page |
| `Pagination.PageBeyondLast` | src/components/staff/Pagination.tsx:29-51 | page 11 of 10 (the page state is never clamped to the server's `total_pages`) lists page 1, one ellipsis and page 10 |
| `Pagination.AppendWindow` | src/components/staff/Pagination.tsx:35-43 | the loop appends exactly the pages `lo` to `hi` in order and keeps what was listed before; since every listed page is below `lo`, the `includes` guard never skips one |
| `Pagination.AssembledOrdered` | src/components/staff/Pagination.tsx:29-51 | the assembled list (first page, optional ellipsis, window, optional ellipsis, last page) is strictly increasing and within 1..totalPages |
| `Pagination.AssembledOutline` | src/components/staff/Pagination.tsx:29-51 | the assembled list has 2 to 7 entries, starts with page 1 and ends with the last page, and has no two ellipses in a row. For a current page in range, the ellipses sit exactly where `currentPage > 3` and `currentPage < totalPages - 2` say |
| `Pagination.AssembledWindow` | src/components/staff/Pagination.tsx:35-51 | the assembled list holds every page of the window and, besides those, only page 1 and the last page |
| `Pagination.WindowShape` | src/components/staff/Pagination.tsx:29-51 | the assembled list satisfies every property `GetPageNumbers` promises, the current page included |
| `Pagination.Render` | src/components/staff/Pagination.tsx:18-93 | nothing is drawn exactly when there is at most one page. Previous is disabled exactly on page 1 and asks for `currentPage - 1`. Next is disabled exactly on the last page and asks for `currentPage + 1` |
| `StaffListPage.NextSort` | src/app/staff/page.tsx:96-102 | a click on the sort column keeps it and flips its direction; a click on another column makes that column the sort column, ascending |
| `StaffListPage.SortTwiceRestores` | src/app/staff/page.tsx:97-98 | one click on the sort column changes the sort and a second restores it |
| `StaffListPage.NewColumnTwiceDescends` | src/app/staff/page.tsx:96-102 | two clicks on a new column leave it sorted descending |
| `StaffListPage.DeletedMessage` | src/app/staff/page.tsx:124 | the success message quotes the staff name in full, at a fixed place |
| `StaffListPage.ListQuery` | src/app/staff/page.tsx:45-52 | the query always carries the page, a limit of 10 and the sort. The name is sent exactly when it is non-empty, the status exactly when one is chosen, and no salary bounds are sent |
| `StaffListPage.ClearedQueryIsUnfiltered` | src/app/staff/page.tsx:89-93 | after clearing, the query carries neither a name nor a status |
| `StaffListPage.Page.constructor` | src/app/staff/page.tsx:20-34 | the page starts loading, on page 1, sorted by `created_at` descending, with no filters, no target and nothing sent |
| `StaffListPage.Page.StartFetch` | src/app/staff/page.tsx:40-52 | loading starts, the error is cleared, exactly one query for the current state is sent, and nothing else changes |
| `StaffListPage.Page.FinishFetch` | src/app/staff/page.tsx:53-59 | loading ends; a response replaces the data, a throw sets the error message, and nothing else changes |
| `StaffListPage.Page.HandleNameChange` | src/app/staff/page.tsx:68-80 | the name filter takes the value, the page resets to 1, and nothing else changes |
| `StaffListPage.Page.HandleStatusChange` | src/app/staff/page.tsx:83-86 | the status filter takes the value, the page resets to 1, and nothing else changes |
| `StaffListPage.Page.HandleClearFilters` | src/app/staff/page.tsx:89-93 | both filters are emptied, the page resets to 1, the sort is kept, and the next query is unfiltered |
| `StaffListPage.Page.HandleSort` | src/app/staff/page.tsx:96-104 | the sort moves as `NextSort` says, the page resets to 1, and nothing else changes |
| `StaffListPage.Page.HandlePageChange` | src/app/staff/page.tsx:107-109 | only the current page changes |
| `StaffListPage.Page.HandleDeleteClick` | src/app/staff/page.tsx:112-114 | only the delete target changes |
| `StaffListPage.Page.HandleDeleteCancel` | src/app/staff/page.tsx:136-138 | only the delete target is cleared |
| `StaffListPage.Page.HandleDeleteConfirm` | src/app/staff/page.tsx:117-133 | with no target nothing changes. Otherwise one delete request for the target is sent and the spinner is off afterwards. On success a message naming the staff member is set, the target is cleared and the list is refetched. On failure the target stays and the error is shown |
| `StaffForm.Payload` | src/components/staff/StaffForm.tsx:77-99 | the request body carries the trimmed staff id and name, the date and status as entered, and the parsed salary |
| `StaffForm.ValidatedPayload` | src/components/staff/StaffForm.tsx:67-83 | a body built from a form that passes validation has a clean staff id (1 to 20 UTF-16 code units, trimmed), a clean name (2 to 100 letters and spaces, trimmed) and a salary of at least zero |
| `StaffForm.ValidatedStaffId` | src/components/staff/StaffForm.tsx:78 | an accepted staff id, once trimmed, is clean |
| `StaffForm.ValidatedName` | src/components/staff/StaffForm.tsx:79 | an accepted name, once trimmed, is clean |
| `StaffForm.Form.constructor` | src/components/staff/StaffForm.tsx:24-35 | the form starts with empty inputs, status "active", no errors, no banner and nothing sent |
| `StaffForm.Form.PopulateFromInitialData` | src/components/staff/StaffForm.tsx:38-48 | in edit mode with initial data the inputs take its staff id, name and status and the formatted date and salary; otherwise they stay |
| `StaffForm.Form.HandleChange` | src/components/staff/StaffForm.tsx:50-59 | only the named input changes. That field's error, when it holds a message, is removed; every other error stays |
| `StaffForm.Form.Submit` | src/components/staff/StaffForm.tsx:61-115 | the banners are cleared first. A form that fails validation shows exactly the validators' errors and sends nothing. Otherwise exactly one create (create mode) or update (edit mode) request with the trimmed body is sent. Success sets the success banner and the redirect; a throw sets the error banner. After a send the spinner is off |
| `StaffForm.Form.Send` | src/components/staff/StaffForm.tsx:73-114 | one request of the form's mode is sent; its outcome sets exactly one banner and, on success, the redirect to `/staff`; the spinner ends off |
| `Header.IsActive` | src/components/layout/Header.tsx:18-23 | the staff list link is active exactly on `/staff`; any other link is active exactly when the path starts with its `href` |
| `Header.ActiveLabels` | src/components/layout/Header.tsx:13-23 | a label is listed exactly when its navigation item is active |
| `Header.OnlyAddStaffOnCreatePage` | src/components/layout/Header.tsx:14-23 | on `/staff/create` only "Add Staff" is highlighted |
| `Header.OnlyStaffListOnListPage` | src/components/layout/Header.tsx:14-23 | on `/staff` only "Staff List" is highlighted |
| `Header.EditPageHighlighting` | src/components/layout/Header.tsx:18-23 | on `/staff/<id>/edit` the list link is never active, and "Add Staff" is active exactly when the id starts with `create` |
| `Header.NothingHighlightedOnEditPage` | src/components/layout/Header.tsx:18-23 | on the edit page of an id not starting with `create`, nothing is highlighted |
| `Formatters.Capitalize` | src/utils/formatters.ts:50-52 | the length is kept, the first character is upper-cased and every later one lower-cased |
| `Formatters.CapitalizeEmpty` | src/utils/formatters.ts:50-52 | the empty string capitalizes to itself |
| `Formatters.CapitalizeIdempotent` | src/utils/formatters.ts:51 | capitalizing twice equals capitalizing once |
| `Formatters.CapitalizeIgnoresLowerCase` | src/utils/formatters.ts:51 | lower-casing the input first changes nothing |
| `Formatters.CapitalizeIgnoresUpperCase` | src/utils/formatters.ts:51 | upper-casing the input first changes nothing |

## Left out

- Network I/O: the axios instance, `authService.login` and the staff service are not modelled. Their answers arrive as method parameters; sent requests are recorded in `log`, `calls`, `queries` and `deletions`.
- The dynamic `import("./authService")` and the undefined `refreshToken` call are not modelled. A refresh's outcome is the choice between `RefreshSucceeded(token)` and `RefreshFailed(error)`.
- Promise scheduling and interleavings are not modelled: each handler runs to its next `await` as one event. `OnResponseError` requires that the failing request is not one already suspended (queued or owning the refresh), since such a request cannot fail again while it waits.
- The rejection of the owner's and the waiters' promises after a successful replay is not modelled, because it is the transport's answer.
- Dates are not modelled: `new Date(dob)` and `new Date()`. `validateDob` takes the parsed birth date (`None` for an Invalid Date) and today's date as numbers.
- `Api.NormalizedMessage`: `detail` is read through an unchecked cast (src/services/api.ts:120); a non-string `detail`, such as a list of validation errors, reaches `new Error(...)` and is converted by `String()`. The model types `Failure.detail` as an optional string and does not capture that conversion.
- Floats are not modelled: `parseFloat`, `isNaN` and number-to-string conversion. The salary arrives parsed (`None` for `NaN`) and is a `real`.
- `formatDateForInput` and `salary.toString()` are not modelled: `PopulateFromInitialData` receives their results as parameters.
- `formatSalary`, `formatDate` and `formatDateTime` are locale formatting through `Intl` and are not modelled.
- Unicode case mapping is not modelled: `toUpperCase` and `toLowerCase` are modelled on ASCII letters only, and every other character is left as is.
- JSX rendering, styling and the other components and pages are not modelled.
- React batching and re-rendering are not modelled: a state setter takes effect at once. The effect that refetches after a filter, sort or page change is left to the caller: `StartFetch` and `FinishFetch` are the fetch itself.
- The search debounce timer in `handleNameChange` is not modelled: its callback does nothing.
- The delayed redirect is recorded in `redirect` instead of being scheduled after 1.5 s.
- `handleCancel`, the Alert close buttons and the input-focus details of the form are not modelled: they are one-line navigations or setters.
- `StaffForm.Form.HandleChange`: the source sets the cleared error to `undefined`; the model removes the key. Nothing reads the key afterwards, so the two are indistinguishable.
- `StaffForm.Form.Submit`: the update call receives the route parameter as an `Option` (the source's `staffId!` passes `undefined` through). Its `status` is the select's string value, unchecked, as in the source.
- Object identity is modelled for requests: `Api.Request` is a class whose headers the 401 handler mutates in place. `Dispatch` sends a fresh copy, because axios merges the configuration into a new object before the request interceptor runs. The list page and form are single instances, with no aliasing between them.
- The `if (originalRequest.headers)` guards (src/services/api.ts:76 and :95) are not modelled: every request has a header map.
