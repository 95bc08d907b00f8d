# Website audit: handler and home-page model

This project models a Next.js application that audits a web page. Three parts are modelled:

- The `POST /api/audit` handler takes a URL, reuses an audit of that URL updated within the last hour, and otherwise captures a desktop screenshot in a headless browser. It uploads the screenshot to a storage bucket, then refreshes the one existing `audits` row for that URL or inserts a new row.
- The `GET /api/audits/recent` handler returns at most ten audits, the most recently updated ones.
- The home page normalises and submits the URL form, loads the recent audits, and shows at most three of them with a coloured status badge and an optional score.

The model is in six modules:

- `Wrappers`: `Option` and `Result`.
- `Text`: JavaScript's `trim`, `startsWith`, `substring(0, n)` and decimal number rendering.
- `Records`: the `audits` row and its findings.
- `AuditRoute`: the POST handler.
  - It is a class, `AuditService`, with three fields: the table (a `map` from id to row), the blob store (a `map` from key to bytes) and the number of browser sessions left open.
  - `Post` is proved against the step relation `PostStep` over the old and new state.
  - The lemmas state the handler's guarantees in terms of `PostStep`.
- `RecentRoute`: the GET handler, as pure functions.
  - It sorts newest first. The database fixes no order among equal `updated_at` values. The model picks one valid order, the order the rows are given in, and no lemma depends on it.
  - It takes ten rows and projects them.
- `HomePage`: the page.
  - `Home` is a class over the page's state variables.
  - `HandleSubmit` is proved against the pure function `Submitted`.

The handler works entirely inside the request:

- It captures the page, uploads the screenshot and writes the row before it answers.
- It only ever writes `completed` rows, with fixed mock findings and no score.
- It captures no mobile screenshot and has no background job or `pending`/`failed` transitions.
- It closes the browser only after a non-OK navigation or after the screenshot. An exception thrown after the launch leaves the session open.

The model follows the code in all four points. The open-session count in `CaptureFailureWritesNothing` makes the last point visible.

External behaviour is passed in as input:

- `RequestBody` is the result of reading and parsing the body.
- `isUrl` stands for whether `new URL` accepts a string.
- `Effects` holds the browser's outcome, the answer of each store call, and the id the table assigns.
- `publicUrlOf` is the bucket's public URL for a key.
- `ServerAnswer` and `RecentAnswer` are the answers the page receives.

A single `now`, in milliseconds, stands for every clock read in one call.

## Model

| member | source | states |
|---|---|---|
| AuditRoute.Truthy | app/api/audit/route.ts:31 | Defines `!url` for the body's field: the field counts only when it is present and not the empty string. |
| AuditRoute.StatusCode | app/api/audit/route.ts:31-150 | The handler answers only 200, 400 or 500. It answers 200 exactly for a cached, refreshed or created audit, and 400 exactly for a rejected URL. |
| AuditRoute.ErrorField | app/api/audit/route.ts:31-150 | The reply carries an `error` field exactly when it is not a 200. |
| AuditRoute.AuditIdField | app/api/audit/route.ts:49-142 | The reply carries an `auditId` exactly when it is a 200. |
| AuditRoute.Validate | app/api/audit/route.ts:27-37 | The URL goes on only if the body parses and has a truthy `url` that `new URL` accepts, and the URL kept is that field. A parsed body that is refused gives a 400. |
| AuditRoute.RejectsMissingUrl | app/api/audit/route.ts:31 | A missing or empty `url` gives 400 "URL is required", and the table, blobs and browsers are unchanged. |
| AuditRoute.RejectsInvalidUrl | app/api/audit/route.ts:33-37 | A `url` that does not parse gives 400 "Invalid URL format", with no state change. |
| AuditRoute.Fresh | app/api/audit/route.ts:39-44 | Defines the cache filter: the row's URL matches and `updated_at >= now - 3600000`. |
| AuditRoute.CacheHit | app/api/audit/route.ts:39-48 | Defines when the cache query returns a row: some stored row is fresh for the URL. |
| AuditRoute.IsLatestFresh | app/api/audit/route.ts:39-46 | Defines the row that `.order("updated_at", { ascending: false }).limit(1)` returns: a fresh row for the URL that no other fresh row for the URL was updated after. |
| AuditRoute.LatestExists | app/api/audit/route.ts:45-46 | Every non-empty set of rows has one with the greatest `updated_at`, so `order(...).limit(1)` always has a row to return. |
| AuditRoute.AuditService.FindRecent | app/api/audit/route.ts:39-47 | Finds a row exactly when some row for the URL has `updated_at >= now - 3600000` (the bound included). The row found is the latest such row. It changes nothing. |
| AuditRoute.CacheHitReusesLatest | app/api/audit/route.ts:39-52 | A reply is cached exactly when the URL is valid, the lookup succeeds and a fresh row exists. The reply then carries the latest fresh row's id, and no capture, upload or write happens. |
| AuditRoute.CaptureFailure | app/api/audit/route.ts:65-67 | Defines the message of each failed capture. A non-OK page gives "Page failed to load or returned error status", and a throw gives its own message. |
| AuditRoute.LeavesBrowserOpen | app/api/audit/route.ts:55-76 | Defines the failures that happen after the launch and skip `browser.close()`. |
| AuditRoute.AuditService.RunBrowser | app/api/audit/route.ts:54-77 | Returns the screenshot exactly when the capture succeeds. The session count rises by one only when a throw after the launch skips `browser.close()`. It changes nothing else. |
| AuditRoute.CaptureFailureWritesNothing | app/api/audit/route.ts:55-77 | A failed capture gives 500 "Audit failed unexpectedly" with the thrown message, and writes no row and no blob. A non-OK navigation closes the browser. A throw after the launch leaves exactly one more session open. |
| AuditRoute.ScreenshotKey | app/api/audit/route.ts:89 | Defines the storage key `screenshot-<now>.jpg`. |
| AuditRoute.ScreenshotKeysDistinct | app/api/audit/route.ts:89 | Screenshots taken at different milliseconds get different storage keys. |
| AuditRoute.UploadFailureWritesNothing | app/api/audit/route.ts:97-100 | A failed upload gives 500 "Failed to upload screenshot" and the state is unchanged. |
| AuditRoute.SoleMatch | app/api/audit/route.ts:104-110 | Defines when `.eq("url", url).single()` returns data: the row is the only one with that URL. |
| AuditRoute.SoleMatchIffOneMatch | app/api/audit/route.ts:104-110 | `.single()` returns data exactly when the set of rows with the URL has one element. |
| AuditRoute.Refresh | app/api/audit/route.ts:111-119 | Defines the merge-update. It writes `updated_at`, `desktop_screenshot`, `findings` and `status: completed`, and keeps every other column. |
| AuditRoute.RefreshUpdatesSoleMatch | app/api/audit/route.ts:104-126 | When exactly one row has the URL, that row becomes completed, with `updated_at = now`, the new screenshot URL and the findings. Its url, `created_at` and mobile screenshot stay. No other row changes, no row is added, and its id is returned. |
| Records.MockFindings | app/api/audit/route.ts:81-86 | Defines the findings the handler stores in place of an analysis: the fixed summary, one high-severity issue for the button, and no score. |
| AuditRoute.NewAudit | app/api/audit/route.ts:128-135 | Defines the inserted row: the URL, `created_at = updated_at = now`, the screenshot URL, the mock findings and status completed. |
| AuditRoute.InsertAddsOneRow | app/api/audit/route.ts:127-142 | Without a single match, exactly one row is added under the assigned id. It has the URL, status completed and `created_at = updated_at = now`. Every old row is unchanged and the new id is returned. |
| AuditRoute.PersistStep | app/api/audit/route.ts:104-143 | Defines the refresh-or-insert step, relating the table before and after to the reply. |
| AuditRoute.PersistOutcome | app/api/audit/route.ts:104-143 | The write step ends in one of three ways. A refresh replaces the sole matching row. An insert uses an id not already in the table. An error leaves the table unchanged and carries a non-empty message. |
| AuditRoute.AuditService.Persist | app/api/audit/route.ts:104-143 | Performs the refresh-or-insert step, including the "Failed to update audit" and "Failed to save audit" errors. It changes only the table. |
| AuditRoute.WriteFollowsUpload | app/api/audit/route.ts:49-110 | A call that changes the table or reports a refresh or insert got past validation, missed the cache, captured the page and uploaded the screenshot. |
| AuditRoute.WritesOneCompletedRow | app/api/audit/route.ts:111-135 | No row is deleted and at most one row changes: the one whose id is returned. It is completed, stamped `now`, and carries the mock findings and the new screenshot URL. |
| AuditRoute.ConsistencyPreserved | app/api/audit/route.ts:111-135 | If every completed row has findings and a screenshot before a call, the same holds after it. |
| AuditRoute.RepeatSubmitHitsCache | app/api/audit/route.ts:39-52 | After a call that refreshed or created a row, a second call with the same URL that starts after the first call returned, within the hour, and whose lookup succeeds is answered from the cache and changes nothing. If the first call's lookup succeeded, the second call returns the same id. |
| AuditRoute.ErrorsAreNonEmpty | app/api/audit/route.ts:31-150 | Every error reply has a non-empty `error` field. |
| AuditRoute.AuditService.constructor | app/api/audit/route.ts:8-11 | The service starts over the given table and blobs, with no browser open. |
| AuditRoute.PostStep | app/api/audit/route.ts:23-151 | Defines one call of the handler, relating the store before and after to the reply, branch by branch in the handler's order. |
| AuditRoute.AuditService.Post | app/api/audit/route.ts:23-151 | One POST call moves the old state to the new state as `PostStep` relates them: validate, cache lookup, capture, upload, then refresh or insert. |
| Text.IsSpace | app/page.tsx:65-70 | Defines the characters `trim` removes: the ECMAScript white-space and line-terminator code points. |
| Text.TrimStart | app/page.tsx:65-70 | Cuts only white space from the front, and leaves a string that is empty or starts with a non-space. |
| Text.TrimEnd | app/page.tsx:65-70 | Cuts only white space from the back, and leaves a string that is empty or ends with a non-space. |
| Text.Trim | app/page.tsx:65-70 | The trimmed string has no white space at either end and is no longer than the input. |
| Text.TrimCutsSpaceOnly | app/page.tsx:65 | `trim` cuts only white space off the two ends. It gives the empty string exactly for blank input. |
| Text.TrimOfTrimmed | app/page.tsx:70 | `trim` leaves a string without white space at its ends unchanged. |
| Text.StartsWith | app/page.tsx:71 | Defines `s.startsWith(p)`: `p` is no longer than `s` and is its prefix. |
| Text.Prefix | app/page.tsx:103 | `substring(0, n)` is a prefix of at most `n` characters. It is the whole string when the string is short enough, and exactly `n` characters otherwise. |
| Text.NatToString | app/api/audit/route.ts:89 | The decimal rendering is non-empty and uses only digits. |
| Text.NatToStringInjective | app/api/audit/route.ts:89 | Different numbers have different renderings. |
| Text.IntToString | app/page.tsx:296 | The rendering of a score starts with `-` exactly when the score is negative. |
| RecentRoute.NewestFirst | app/api/audits/recent/route.ts:21 | Defines `order("updated_at", { ascending: false })`: no row is updated later than a row before it. |
| RecentRoute.Insert | app/api/audits/recent/route.ts:21 | Inserting into a newest-first list keeps it newest first and adds exactly that row. |
| RecentRoute.SortNewestFirst | app/api/audits/recent/route.ts:21 | The order is newest first and is a permutation of the rows. |
| RecentRoute.Project | app/api/audits/recent/route.ts:20 | Defines the projection of a row to `id, url, status, created_at, updated_at, findings`. |
| RecentRoute.Top | app/api/audits/recent/route.ts:21-22 | Defines the rows `limit(10)` keeps from the sorted table. |
| RecentRoute.Omitted | app/api/audits/recent/route.ts:21-22 | Defines the rows `limit(10)` drops from the sorted table. |
| RecentRoute.Recent | app/api/audits/recent/route.ts:20-22 | Returns min(rows, 10) entries in non-increasing `updated_at` order. |
| RecentRoute.RecentIsTopTen | app/api/audits/recent/route.ts:21-22 | The returned and omitted rows together are exactly the table's rows. No omitted row is newer than any returned one. Rows are omitted only when ten are returned. |
| RecentRoute.RecentEntriesAreStored | app/api/audits/recent/route.ts:20 | Every entry is a stored row projected to its six columns. |
| RecentRoute.Get | app/api/audits/recent/route.ts:16-34 | An answered query returns `Recent` of the rows: at most 10 entries, newest first, with the top-ten and stored-row facts above. A null result returns an empty list. A store error returns "Failed to fetch recent audits" and a throw returns "Internal server error". The reply is an error exactly in those two cases. The handler is a function of the rows and writes nothing. |
| HomePage.HasScheme | app/page.tsx:71 | Defines the test the form applies: the URL starts with `http://` or `https://`, case-sensitive. |
| HomePage.Normalize | app/page.tsx:70-73 | Defines the submitted URL. It is the trimmed input, with `https://` in front unless the input starts with `http://` or `https://`. |
| HomePage.NormalizeAddsScheme | app/page.tsx:70-73 | The submitted URL is the trimmed input, with `https://` in front unless it starts with `http://` or `https://`. It always starts with one of the two. |
| HomePage.NormalizeKeepsSchemed | app/page.tsx:70-73 | A URL with no white space at its ends that already names a scheme is submitted unchanged. |
| HomePage.NormalizeIdempotent | app/page.tsx:70-73 | Normalising twice gives the same result as normalising once. |
| HomePage.ThrownMessage | app/page.tsx:96-115 | Defines the message of the error thrown in the request block. A failed fetch, a body that is not JSON, and a non-OK answer each give one. An OK JSON answer gives none. |
| HomePage.Settle | app/page.tsx:106-115 | Defines how a submission ends: navigate to `/audit/<auditId>`, or show "Failed to start audit: " followed by the message. |
| HomePage.SettleOutcome | app/page.tsx:99-115 | The page navigates to `/audit/...` exactly on an OK answer with a JSON body. Every other answer shows an error starting with "Failed to start audit: ". |
| HomePage.NonOkShowsServerError | app/page.tsx:106-115 | A non-OK answer shows the `error` field, or "Server error: <status>" when the field is missing or empty. |
| HomePage.NonJsonShowsBodyPrefix | app/page.tsx:99-104 | A body that is not JSON shows "Invalid JSON response: " and the body's first 100 characters. |
| HomePage.AnswerOf | app/page.tsx:96-106 | Defines how a handler reply reaches the page: `response.ok` exactly for a 200, the reply's status, and a JSON body with its `error` and `auditId` fields. The reply is built by `createJsonResponse` at app/api/audit/route.ts:13-21. |
| HomePage.PageReportsHandlerReply | app/page.tsx:96-115 | For any reply of the audit handler, the page opens the returned audit on a 200, and otherwise shows the handler's error message. |
| HomePage.StatusColor | app/page.tsx:142-153 | Completed, pending and failed get the green, amber and red classes respectively. Any other status gets gray. Each case holds in both directions. |
| HomePage.Badge | app/page.tsx:303-320 | The badge takes one of three branches, each holding in both directions: one for completed, one for pending, and the Failed branch for every other status. |
| HomePage.BadgeLabel.Label | app/page.tsx:306-318 | Defines the text of each branch. Completed shows "Completed" on wide screens and "Done" on narrow ones. Pending shows "Processing" or "Pending". Failed shows "Failed" on both. |
| HomePage.UnknownStatusLooksFailedInGray | app/page.tsx:302-320 | An unknown status is badged Failed but coloured gray, unlike `failed`. |
| HomePage.ScoreLabel | app/page.tsx:293-298 | The score slot renders nothing exactly when findings or the score is absent. A score of 0 renders the bare text `0`, which is the value of the `&&` itself. Any other score renders `<score>/100`. |
| HomePage.ZeroScoreRendersBareZero | app/page.tsx:293 | A score of 0 renders `0` with no `/100` label, where the intended rule renders nothing. |
| HomePage.IntendedScoreLabel | app/page.tsx:293-298 | The intended slot shows `<score>/100` exactly when a score is present and non-zero. |
| HomePage.ScoreLabelIntendedExceptZero | app/page.tsx:293-298 | The slot as written and the intended slot agree on every input except a score of 0. |
| HomePage.Shown | app/page.tsx:275 | At most three cards are shown. They are the first entries of the list, and the whole list when it has fewer than three. |
| HomePage.ShownAreNewest | app/page.tsx:271-275 | The cards shown are the min(rows, 3) newest audits, newest first. |
| HomePage.BlankInputDoesNothing | app/page.tsx:65 | Blank input returns at once: no request, and no error or loading change. |
| HomePage.InvalidUrlSendsNothing | app/page.tsx:75-80 | An unparsable URL shows "Please enter a valid URL". Loading never starts and nothing is sent. |
| HomePage.SentSubmissionSettles | app/page.tsx:82-118 | A sent submission posts the normalised URL once, and loading is off at the end on every path. On success the page opens the audit and clears the error. Otherwise it shows the settled message. |
| HomePage.PostedUrlsHaveScheme | app/page.tsx:70-93 | Every URL the page posts starts with `http://` or `https://`. |
| HomePage.Submitted | app/page.tsx:63-119 | Defines the form after one submission. Blank input changes nothing. Otherwise the normalised URL is checked, and the result is `Checked`. |
| HomePage.Checked | app/page.tsx:67-118 | Defines the form after a non-blank submission. An unparsable URL only sets the error. Otherwise the error is cleared, loading starts, the URL is posted, the answer is settled and loading stops. |
| HomePage.Home.constructor | app/page.tsx:37-42 | The page starts with the default URL, no error, not loading, and the recent list loading. |
| HomePage.Home.ShowsRecent | app/page.tsx:271 | Defines when the recent-audits section is drawn: loading is over and the list is not empty. |
| HomePage.Home.FetchRecentAudits | app/page.tsx:49-61 | Only an OK answer replaces the list, by `audits` or by `[]` when that is missing. Loading stops on every path and nothing else changes. Afterwards the section is drawn exactly when the list is not empty. |
| HomePage.Home.HandleSubmit | app/page.tsx:63-119 | The form state after the call is `Submitted` of the old state. The input, the recent list and its loading flag are unchanged. |
| HomePage.Home.SubmitChecked | app/page.tsx:67-118 | Runs the setter sequence of a non-blank submission, so the form becomes `Checked` of the old form. The input and the recent list are unchanged. |

## Left out

- The browser's internals are not modelled: launch flags, user agent, scrolling, the 1.5 s wait, time-outs and JPEG encoding. The capture is an abstract outcome with the image bytes.
- The database and storage clients are not modelled. The table and the bucket are maps, and `getPublicUrl` is an uninterpreted function of the key.
- `JSON.parse` and `new URL` are inputs: the parsed body or answer, and the predicate `isUrl`. Neither is re-implemented.
- A non-string truthy `url` in the request body (a number or an object) is not modelled. `url` is absent or a string.
- A JSON answer to the page that is not an object, or whose `error` field is not a string, is not modelled.
- Throws that are not `Error` instances, which the page shows as "Unknown error occurred", are not modelled. Every failure carries a message.
- A `browser.close()` that throws is not modelled.
- Each call reads the clock once. Separate clock reads within one call, and the ISO-string rendering of times, are not modelled. Times are integers in milliseconds, and their order is the strings' order.
- A query error in the cache lookup or the match lookup is modelled as "no data", as `.single()` reports it.
- The health route, the fixture route `app/api/audit/test/route.ts`, `testHealthCheck` on the page, the layout, the JSX markup and the polling scripts are not part of this model.
- The audit detail route `app/api/audit/[id]/route.ts` and the audit page are not part of this model.
- `findings.score` is modelled as an integer. Fractional and NaN scores are not modelled. `Text.IntToString` renders every integer in full decimal. A JavaScript number renders an integer of magnitude 10^21 or more in exponent form, such as `1e+21`, and holds integers exactly only up to 2^53; neither is modelled.
- Text.Prefix: counts the 100 characters in Unicode code points, but `substring` counts UTF-16 code units. For a body with characters outside the Basic Multilingual Plane (emoji, say), the model keeps more text than the page. A cut inside a surrogate pair leaves half a character, which a Dafny `char` cannot hold.
- HomePage.NonJsonShowsBodyPrefix: the body prefix it states is `Text.Prefix`, so it counts code points rather than UTF-16 units, as the line above says.
- RecentRoute.SortNewestFirst: the database fixes no order among rows with equal `updated_at`. The model keeps the order the rows are given in, and no lemma depends on that choice.
- AuditRoute.CacheHitReusesLatest: when several fresh rows share the latest `updated_at`, the model allows any of them. It does not fix the database's tie-break.
- AuditRoute.AuditService.Post: each call is modelled as one atomic step from the old store to the new one. Overlapping calls are not modelled. In the handler, the launch, the navigation (up to 20 s), the 1.5 s wait, the screenshot and the upload all happen between the cache lookup and the write. Two overlapping calls for a new URL can both miss the cache, find no sole match, and both insert. That leaves two rows for the URL, after which `.single()` returns no data for it and every later cache miss inserts another row. `RepeatSubmitHitsCache` covers only a second call that starts after the first one returned.
- HomePage.Home.HandleSubmit: models the settled outcome of the asynchronous request as one step. States between the `await`s are not modelled, and neither is a second submission while one is pending.

## Findings

| source | as written | input that shows it | evidently intended | confidence | as-written member | corrected member |
|---|---|---|---|---|---|---|
| app/page.tsx:293 | `{audit.findings?.score && (...)}` evaluates to the number 0 for a zero score, and React renders it | a recent audit whose `findings.score` is 0 | render nothing for a zero score, as for a missing one | not executed; follows from how `&&` and React's rendering of numbers behave | HomePage.ScoreLabel, HomePage.ZeroScoreRendersBareZero | HomePage.IntendedScoreLabel, HomePage.ScoreLabelIntendedExceptZero |
