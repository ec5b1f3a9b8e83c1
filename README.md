# Intake pipeline of the fair-chance job board

This project models the intake logic of a job board for a fair-chance
employment program, and proves properties of that model. Staff paste job
URLs into the board, or paste a posting's text. The board then does four things:

- It decides whether a URL can be analysed automatically. Indeed URLs and
  applicant-tracking sites go to manual entry instead.
- It asks a classifier to analyse the URL or the text.
- It turns the classifier's answer into a job record.
- It stores the record, tagged with the frequent hirer it belongs to.

A bulk mode runs the same steps over many URLs, one after the other.

The model covers three source files:

- `app/page.js`:
  - the URL tests `isIndeedUrl` and `isProblematicSite`;
  - the routing of `handleSubmit`;
  - the effect that watches the URL field;
  - the frequent-hirer table and `detectFrequentHirer`;
  - the row that `saveJobToSupabase` inserts;
  - the placeholder job of "Add Anyway";
  - the bulk loop `handleBulkSubmit`;
  - the active-job rule of `fetchJobs` and the view filters of
    `filteredJobs`.
- `app/api/analyze/route.js`: `fetchWithRetry`, a retry loop with linear
  backoff on HTTP 429, and the `POST` pipeline. The pipeline runs:
  1. the input check;
  2. the status mapping;
  3. the concatenation of text blocks;
  4. the empty check;
  5. fence stripping and parsing;
  6. the legitimacy gate;
  7. the defaulting of each job field with JavaScript `||`.
- `app/api/analyze-manual/route.js`: the `POST` pipeline of the manual
  route. It makes a single call with no retry, has no empty or legitimacy
  check, and fixes the direct URL and the dates.

Modules, one per file:

| module | file | what it holds |
|---|---|---|
| `JsText` | `js_text.dfy` | the string operations the code relies on: `toLowerCase`, `includes`, `trim`, `split("\n")`, `join("\n")`, decimal rendering |
| `JsValue` | `js_value.dfy` | JavaScript values, truthiness, property access that throws on `null`/`undefined`, `\|\|`, `String(v)` |
| `Seqs` | `seqs.dfy` | `Array.prototype.filter` and subsequences |
| `Intake` | `intake.dfy` | the job record, the routes' answers, the defaulted job literal shared by both routes |
| `Upstream` | `upstream.dfy` | the classifier's reply, text-block concatenation (a loop), fence stripping and cleaning |
| `AnalyzeRoute` | `analyze.dfy` | `fetchWithRetry` (a loop) and the automatic route |
| `AnalyzeManualRoute` | `analyze_manual.dfy` | the manual route |
| `UrlTriage` | `url_triage.dfy` | the URL tests, `handleSubmit` routing, the URL-watching effect |
| `FrequentHirers` | `frequent_hirers.dfy` | the hirer table and `detectFrequentHirer` (a loop with early return) |
| `JobRecords` | `job_records.dfy` | the "Add Anyway" job, the stored row, `saveJobToSupabase` |
| `JobViews` | `job_views.dfy` | the active-job rule and the view filters |
| `BulkSubmit` | `bulk_submit.dfy` | `handleBulkSubmit` (a loop over counters and lists) and its message |

The outside world is replaced by parameters:

- The classifier is an oracle:
  - in the automatic route, `server: nat -> Reply` gives the reply to the
    call made on each attempt;
  - in the manual route, it is a single `Reply`.
- `JSON.parse` is an opaque partial function `parse: string -> Option<Value>`.
- The request body is `Option<Value>`. `None` means `request.json()` threw.
- Dates come in as inputs:
  - the id, today's date and the timestamp are a `Clock` value;
  - `new Date(v)` is a parameter `date: Value -> Option<int>`;
  - the current time is an integer in milliseconds.
- In bulk mode:
  - the automatic route's answer for each URL is an oracle
    `analyze: (nat, string) -> Option<Body>`, indexed by the URL's position
    in the list, so a URL listed twice can get two different answers.
    `None` means the request or the reading of its answer threw;
  - the store reports through `save: (nat, Job) -> bool`, indexed the same way.
- Pauses are recorded as lists of milliseconds instead of being slept.

Code that updates variables in a loop is modelled as a `method` with a
`while` loop. Each such method is proved equal to a specification
function: `FetchWithRetry`, `ExtractText`, `DetectFrequentHirer` and
`HandleBulkSubmit`, plus the two `Post` handlers. Their properties are then
proved as lemmas about those functions.

Two facts about the code:

- **Pauses in a bulk run.** The loop at app/page.js:389-433 pauses after
  every automatic URL, the last one included (`ThreeUrlsSecondManual`).
- **Duplicates.** The code has no check for duplicate URLs, so none is
  modelled. A URL listed twice in a bulk run is analysed twice.

## Model

| member | source | states |
|---|---|---|
| UrlTriage.IsIndeedUrl | app/page.js:33-39 | `isIndeedUrl`: the three `includes` tests on the lower-cased URL behind the empty-URL guard. `IndeedUrlIff` characterises it. |
| UrlTriage.IsProblematicSite | app/page.js:42-59 | `isProblematicSite`: some domain of the list occurs in the lower-cased URL behind the empty-URL guard. `ProblematicIff` characterises it. |
| UrlTriage.Submit | app/page.js:315-342 | The routing of `handleSubmit`: refuse a blank URL, else Indeed entry, else manual entry, else analyse the trimmed URL. `SubmitPrecedence` states the order. |
| UrlTriage.WatchUrl | app/page.js:166-178 | The URL-watching effect: the form it turns on for the current flags. `WatchUrlModes` states its invariants. |
| UrlTriage.IndeedUrlIff | app/page.js:33-39 | A URL is an Indeed URL exactly when it is non-empty and its lower-cased form contains "indeed.ca" or "indeed.co". The "indeed.com" test is subsumed, and the empty URL is never one. |
| UrlTriage.ProblematicIff | app/page.js:42-59 | The domain list has 11 entries. A URL is problematic exactly when it is non-empty and its lower-cased form contains one of them. |
| UrlTriage.TriageIgnoresCase | app/page.js:33-59 | Lower-casing the URL first changes neither test. |
| UrlTriage.SubmitPrecedence | app/page.js:315-342 | A blank URL is refused. An Indeed URL goes to Indeed entry even when it also matches a problematic domain. A problematic URL goes to manual entry. Exactly the URLs that are not blank and match neither list are analysed. |
| UrlTriage.AnalyzedUrlAccepted | app/page.js:337-341 | The trimmed URL sent for analysis is truthy, so it passes the route's URL check. |
| UrlTriage.WatchUrlModes | app/page.js:166-178 | The effect never turns a form off and never turns both on. It never turns on manual entry for an Indeed URL. With no form on, it turns on the form `handleSubmit` would route to. |
| FrequentHirers.FirstHirer | app/page.js:72-80 | `None` exactly when no pattern of any entry occurs in the text. Otherwise the result is the slug of a matching entry with no matching entry before it. |
| FrequentHirers.DetectFrequentHirer | app/page.js:72-80 | The loop with early return gives the first match, in table order, over the lower-cased `${company} ${title}`. |
| FrequentHirers.FirstHirerUnique | app/page.js:74-78 | Any matching entry with no earlier match determines the result. |
| FrequentHirers.WalmartSupercenter | app/page.js:12-13 | The company "Walmart Supercenter" is attributed to "walmart" whatever the title. |
| FrequentHirers.SearchTextStarts | app/page.js:73 | The search text starts with the lower-cased company name. |
| FrequentHirers.HirerIgnoresCase | app/page.js:73 | The letter case of company and title does not affect the search text. |
| JobRecords.AddAnywayJob | app/page.js:448-468 | `handleAddAnyway`'s placeholder job, or nothing for a blank URL. `AddAnywayShape` states its fields. |
| JobRecords.ToRow | app/page.js:184-202 | The row `saveJobToSupabase` inserts, with the review flag defaulted to `false` and the detected slug. `RowReviewFlag` states its flags. |
| JobRecords.AddAnywayShape | app/page.js:448-468 | Nothing is built exactly when the URL is all white space. Otherwise the job links to the trimmed URL for both url and directUrl. It is titled "Needs Review", graded "good" in category "other", has no expiry, is dated today and is marked for review. |
| JobRecords.RowReviewFlag | app/page.js:181-201 | The stored `needs_review` is truthy exactly when the job's flag is. It is never undefined, and it is `false` when the flag is falsy. `frequent_hirer_slug` is null exactly when no hirer pattern matches. |
| JobRecords.StoredReviewFlags | app/page.js:181-201 | A job added anyway is stored marked for review. A job from an analysis route is stored unmarked. |
| JobRecords.SaveJob | app/page.js:181-209 | The inserted row is the job's row with the detected slug. The result is the insert's success. |
| JobViews.IsActive | app/page.js:118-125 | The active-job test of `fetchJobs`. `ActiveRule` and `ActiveEarlier` state it. |
| JobViews.ActiveJobs | app/page.js:109-126 | After a failed query the board keeps the list it already shows. A `null` result shows nothing. Otherwise the result is the subsequence of active jobs, a job is in it exactly when it was fetched and is active, and each active job appears as many times as it was fetched. |
| JobViews.ActiveRule | app/page.js:118-125 | With an expiry date, a job is active exactly when the expiry is after now, and never when the date is invalid. Without one, it is active exactly when at most 21 days (in ms) have passed since submission. |
| JobViews.ActiveEarlier | app/page.js:118-125 | A job active now was active at any earlier time. |
| JobViews.Keeps | app/page.js:483-491 | The predicate of `filteredJobs`. `FilterJobs`, `DiplomaLicenseFilters` and `GradeFilterNarrows` state what it keeps. |
| JobViews.FilterJobs | app/page.js:483-491 | The view is a subsequence of the jobs. A job is in it exactly when it passes every filter, and then as many times as it is in the list. |
| JobViews.AllFiltersKeepAll | app/page.js:483-491 | With every filter set to "all", every job is kept, in order. |
| JobViews.DiplomaLicenseFilters | app/page.js:484-489 | "yes" and "no" keep only jobs whose diploma (license) flag is truthy or falsy. A grade filter keeps only that grade. |
| JobViews.GradeFilterNarrows | app/page.js:484 | Turning the grade filter off never drops a job. |
| BulkSubmit.UrlList | app/page.js:374 | `split("\n").map(trim).filter(Boolean)`. `UrlListClean`, `NoUrlsInEmpty` and `UrlListOfLines` state it. |
| BulkSubmit.Step | app/page.js:390-432 | One turn of the loop for the URL at a given position. `StepConsistent`, `StepOutcomes` and `ManualUrlsUntouched` state it. |
| BulkSubmit.Run | app/page.js:389-433 | The loop over the list, in order. `RunShape` states what it ends with. |
| BulkSubmit.Message | app/page.js:437-441 | The summary message. `MessagePlural`, `MessageFailures` and `MessageManual` state it. |
| BulkSubmit.Bulk | app/page.js:373-445 | `handleBulkSubmit` as a function: no URLs, or the tally, the message and the text left in the box. `HandleBulkSubmit` is proved equal to it. |
| BulkSubmit.HandleBulkSubmit | app/page.js:373-445 | The loop over counters, the error list and the manual list ends in the state `Run` specifies. The message and the text left in the box are `Message` and the joined manual URLs. An empty list is refused. |
| BulkSubmit.SummaryMessage | app/page.js:437-441 | The message is built piece by piece as `Message` specifies. |
| BulkSubmit.RunShape | app/page.js:389-433 | The URLs set aside are exactly the subsequence the test picks, and the URLs sent are exactly the rest, both in input order. added + failed ≤ sent. Log entries ≤ failed, each for a sent URL and each with a truthy hint. There is one 1000 ms pause per sent URL. |
| BulkSubmit.StepConsistent | app/page.js:389-433 | One turn keeps those counts consistent. It appends the URL to exactly one of the two lists, with a pause exactly when it is sent. |
| BulkSubmit.StepOutcomes | app/page.js:396-429 | A thrown request is logged as "Request failed" / "Network error - try again". A reported error is logged with its hint, or "Check the URL and try again" when it has none. Both count as failures. A returned job counts as added when saved, and otherwise as a failure without a log entry. |
| BulkSubmit.ManualUrlsUntouched | app/page.js:390-394 | A URL set aside is only appended to the manual list: no request, no pause, no counter. |
| BulkSubmit.UrlListClean | app/page.js:374 | Every URL of the list is non-empty, on one line and already trimmed. |
| BulkSubmit.NoUrlsInEmpty | app/page.js:374-378 | Empty text gives no URLs. |
| BulkSubmit.UrlListOfLines | app/page.js:374 | Clean URLs joined by newlines read back as the same list. |
| BulkSubmit.RemainingResubmits | app/page.js:443 | The text left in the box is the manual URLs joined by "\n", and submitting it again reads back exactly those URLs. |
| BulkSubmit.MessagePlural | app/page.js:437 | The message starts "Added N job", followed by "s" exactly when N ≠ 1. |
| BulkSubmit.MessageFailures | app/page.js:438 | ", F failed" appears when F > 0. With no failures the message has no 'f'. |
| BulkSubmit.MessageManual | app/page.js:439-441 | The manual-entry note appears when URLs were set aside. With none, the message has no 'I'. |
| BulkSubmit.ThreeUrlsSecondManual | app/page.js:389-433 | For three URLs where only the second needs manual entry, the set-aside list is [u2], the sent list is [u1, u3], and the pauses are [1000, 1000]. |
| AnalyzeRoute.RetryFrom | app/api/analyze/route.js:5-17 | The loop of `fetchWithRetry` from a given attempt on. `RetryFromShape` and `RetryShape` state it. |
| AnalyzeRoute.FetchWithRetry | app/api/analyze/route.js:5-17 | The loop with `continue` returns what `RetryFrom` specifies: the reply, the pauses and the number of calls. |
| AnalyzeRoute.RetryFromShape | app/api/analyze/route.js:5-17 | From any attempt, the loop returns the first reply that is not a 429, or the reply to the last attempt. Every earlier reply was a 429. The pause before the next attempt is attempt × 5000 ms, and there is one pause fewer than calls. |
| AnalyzeRoute.RetryShape | app/api/analyze/route.js:5-17 | For maxRetries < 1 there is no call and the result is `undefined`. Otherwise there are 1 to maxRetries calls, and the result is the reply to the last call. Earlier replies were 429s, and the last is not a 429 unless it was the final attempt. The pauses are exactly 5000, 10000, … with none after the last call. |
| AnalyzeRoute.RetryThreeRateLimits | app/api/analyze/route.js:5-17 | Three 429s give pauses [5000, 10000] and return the third reply. |
| AnalyzeRoute.StatusFailure | app/api/analyze/route.js:44-55 | The status is passed through and Add Anyway is not offered. The error is "Rate limited" exactly for 429 and "API request failed" exactly otherwise. |
| AnalyzeRoute.AutoRoute | app/api/analyze/route.js:19-125 | `POST /api/analyze` as a function of the request, the classifier, the parser and the clock. The route lemmas below state it. |
| AnalyzeRoute.AutoOutcome | app/api/analyze/route.js:44-115 | The answer once `fetchWithRetry` has returned. `StatusMapping`, `AutoServerError` and `AddAnywayOffered` state it. |
| AnalyzeRoute.TextOutcome | app/api/analyze/route.js:66-115 | The answer once the text is read. `BlankText`, `UnparsableText`, `LegitimacyGate` and `FencedSameOutcome` state it. |
| AnalyzeRoute.AutoJob | app/api/analyze/route.js:94-113 | The job of an accepted analysis. `AutoJobFields` and `AutoJobDefined` state it. |
| AnalyzeRoute.AutoServerError | app/api/analyze/route.js:20-124 | The answer is "Server error" exactly on the paths that throw into the outer catch, and there it is 500 with Add Anyway offered. Those paths: the body is null, undefined or not JSON; `fetchWithRetry` returns `undefined`; `fetch` rejects; the reply body is not JSON; `content` cannot be iterated; or the analysis is null or undefined. |
| AnalyzeRoute.Post | app/api/analyze/route.js:19-125 | The handler's answer, pauses and call count are those of `AutoRoute`. |
| AnalyzeRoute.MissingUrl | app/api/analyze/route.js:23-25 | A falsy URL gives 400 "URL is required" with no call and no pause. |
| AnalyzeRoute.UrlReachesClassifier | app/api/analyze/route.js:21-42 | A truthy URL leads to 1 to 3 calls, with pauses 5000·k between them. |
| AnalyzeRoute.StatusMapping | app/api/analyze/route.js:44-55 | 429 gives "Rate limited" with its fixed hint. Any other non-OK status gives "API request failed" with "Server returned S. Try again." The status is passed through and Add Anyway is not offered. |
| AnalyzeRoute.BlankText | app/api/analyze/route.js:66-72 | Text that is all white space gives "Empty response" with Add Anyway offered. |
| AnalyzeRoute.UnparsableText | app/api/analyze/route.js:74-84 | Cleaned text that does not parse gives "Failed to parse response" with Add Anyway offered. |
| AnalyzeRoute.LegitimacyGate | app/api/analyze/route.js:86-113 | A job is returned exactly when `isLegitimate` is truthy. Otherwise the answer is "Flagged as not legitimate" with Add Anyway offered, and the hint is `legitimacyReason` when truthy and "Posting may be expired" otherwise. |
| AnalyzeRoute.AddAnywayOffered | app/api/analyze/route.js:19-125 | An error answer offers Add Anyway exactly when it is not "URL is required", "Rate limited" or "API request failed". |
| AnalyzeRoute.SuccessShape | app/api/analyze/route.js:94-115 | A returned job comes with status 200 after at least one call. It carries the request's truthy URL, is unmarked for review, and is attributed to "CEO Fresno Staff". |
| AnalyzeRoute.FencedSameOutcome | app/api/analyze/route.js:66-84 | For a non-blank, backtick-free payload, wrapping it in "```json … ```" gives the same outcome as the bare payload. Wrapping it in "``` … ```" does too when it does not start with "json". A blank payload in a fence is not blank and goes on to the parser, a bare fence before "json" removes that word, and backticks inside the payload are removed, so outside these conditions the outcomes can differ. |
| AnalyzeRoute.AutoJobFields | app/api/analyze/route.js:94-113 | Each displayed field is the analysis value when truthy, and its default otherwise. directUrl falls back to the job URL, datePosted to today and expirationDate to null. needsReview is false. |
| AnalyzeRoute.AutoJobDefined | app/api/analyze/route.js:94-113 | With a truthy URL no field of the job is undefined. |
| AnalyzeRoute.FirstCallAnswered | app/api/analyze/route.js:5-17 | When the first reply is not a 429, exactly one call is made and nothing is waited. |
| AnalyzeRoute.AcceptedPosting | app/api/analyze/route.js:19-115 | A legitimate analysis in one text block yields a job with its title and grade and the default company, after one call without pauses. |
| AnalyzeRoute.PersistentRateLimit | app/api/analyze/route.js:5-55 | Three 429s give pauses [5000, 10000], three calls, and a 429 "Rate limited" answer without Add Anyway. |
| AnalyzeManualRoute.ManualRoute | app/api/analyze-manual/route.js:3-84 | `POST /api/analyze-manual` as a function. The route lemmas below state it. |
| AnalyzeManualRoute.ManualOutcome | app/api/analyze-manual/route.js:27-75 | The answer to the one upstream call. `StatusPassedThrough` and `ManualServerError` state it. |
| AnalyzeManualRoute.ManualTextOutcome | app/api/analyze-manual/route.js:43-75 | The answer once the text is read. `BlankTextParsed`, `ParseFailure` and `FixedFields` state it. |
| AnalyzeManualRoute.ManualJob | app/api/analyze-manual/route.js:54-73 | The job of a manual analysis. `FixedFields`, `IgnoredKeys` and `ManualIsAutoWithFixedFields` state it. |
| AnalyzeManualRoute.ManualServerError | app/api/analyze-manual/route.js:4-83 | The answer is "Server error" exactly on the paths that throw into the outer catch, and there it is 500 without Add Anyway. Those paths: the body is null, undefined or not JSON; `fetch` rejects; the reply body is not JSON; `content` cannot be iterated; or the analysis is null or undefined. |
| AnalyzeManualRoute.Post | app/api/analyze-manual/route.js:3-84 | The handler's answer and whether it called the classifier are those of `ManualRoute`. |
| AnalyzeManualRoute.InputCheck | app/api/analyze-manual/route.js:5-9 | The classifier is called exactly when both URL and description are truthy. Otherwise the answer is 400 "URL and description are required". |
| AnalyzeManualRoute.StatusPassedThrough | app/api/analyze-manual/route.js:27-32 | Every non-OK status is passed through as "API request failed" with "Server returned S. Try again." and no Add Anyway. |
| AnalyzeManualRoute.RateLimitDiffers | app/api/analyze-manual/route.js:27-32 | A 429 is "API request failed" here but "Rate limited" in the automatic route. |
| AnalyzeManualRoute.BlankTextParsed | app/api/analyze-manual/route.js:36-52 | Blank text is not rejected: it is handed to the parser as the empty string. |
| AnalyzeManualRoute.BlankTextFails | app/api/analyze-manual/route.js:36-52 | Blank text ends on 200 "Failed to parse response" / "Please try again." whenever the empty string does not parse. |
| AnalyzeManualRoute.ParseFailure | app/api/analyze-manual/route.js:43-52 | Text that does not parse gives 200 "Failed to parse response" / "Please try again." without Add Anyway. |
| AnalyzeManualRoute.FixedFields | app/api/analyze-manual/route.js:54-73 | A parsed analysis always yields a job. Its directUrl is the URL, its date is today, its expiry is null and it is unmarked. |
| AnalyzeManualRoute.IgnoredKeys | app/api/analyze-manual/route.js:54-73 | Changing isLegitimate, legitimacyReason, directApplicationUrl, datePosted or expirationDate in the analysis leaves the job unchanged. |
| AnalyzeManualRoute.ManualIsAutoWithFixedFields | app/api/analyze-manual/route.js:54-73 | The manual job is the automatic route's job with directUrl, datePosted and expirationDate fixed. |
| AnalyzeManualRoute.ServerErrorDiffers | app/api/analyze-manual/route.js:77-83 | An unexpected exception gives 500 "Server error" without Add Anyway, whereas the automatic route offers it. |
| AnalyzeManualRoute.NoAddAnyway | app/api/analyze-manual/route.js:3-84 | No answer of the manual route offers Add Anyway. |
| Intake.RequestField | app/api/analyze/route.js:21 | Destructuring the body throws exactly when it failed to parse or is null or undefined. A present key gives its value. |
| Intake.AnalysisJob | app/api/analyze/route.js:94-113 | The job literal both routes build, with the route-specific fields passed in. `AnalysisJobFields` and `AnalysisJobTruthy` state it. |
| Intake.AnalysisJobFields | app/api/analyze/route.js:94-113 | Each of the ten defaulted fields is the analysis value when truthy, and its default otherwise. The fixed fields are what the route passes. |
| Intake.AnalysisJobTruthy | app/api/analyze/route.js:98-105 | The displayed fields are always truthy. The job has no undefined field when the route's own fields are defined. |
| Upstream.ContentText | app/api/analyze/route.js:57-64 | The text of `data.content`, or a throw when it cannot be walked. `ExtractText` is proved equal to it, and `TextOfTextBlocks` states what it keeps. |
| Upstream.ExtractText | app/api/analyze/route.js:57-64 | The accumulation loop yields `ContentText`: the concatenated text, or a throw when `content` cannot be walked. |
| Upstream.TextOfTextBlocks | app/api/analyze/route.js:59-64 | Only blocks of type "text" contribute, in order: the text is that of the filtered blocks. |
| Upstream.TextOfAppend | app/api/analyze/route.js:59-64 | The text of two runs of blocks is the concatenation of their texts. |
| Upstream.TextOfStrings | app/api/analyze/route.js:59-64 | Text blocks carrying given strings yield exactly their concatenation. |
| Upstream.StripFences | app/api/analyze/route.js:76 | The global replacement of "```json" or "```" by nothing, scanning left to right. `NoFenceLeft`, `StripFenceFree` and `StripTickFree` state it. |
| Upstream.CleanJson | app/api/analyze/route.js:76 | The replacement followed by `trim`. `CleanIdempotent`, `CleanTagged`, `CleanBare` and `CleanUnfenced` state it. |
| Upstream.NoFenceLeft | app/api/analyze/route.js:76 | No "```" survives the replacement, even one formed across a removed fence. |
| Upstream.StripFenceFree | app/api/analyze/route.js:76 | Text without "```" is left unchanged. |
| Upstream.CleanIdempotent | app/api/analyze/route.js:76 | Cleaning a cleaned text changes nothing. |
| Upstream.StripTickFree | app/api/analyze/route.js:76 | A backtick-free prefix passes through the replacement unchanged. |
| Upstream.CleanTagged | app/api/analyze/route.js:76 | For a backtick-free payload p, "```json" + p + "```" cleans to trim(p). |
| Upstream.CleanBare | app/api/analyze/route.js:76 | For a backtick-free payload not starting with "json", "```" + p + "```" cleans to trim(p). |
| Upstream.CleanBareJsonWord | app/api/analyze/route.js:76 | For a backtick-free payload, "```" + "json" + p + "```" also cleans to trim(p): the word "json" after a bare fence is removed. |
| Upstream.CleanUnfenced | app/api/analyze/route.js:76 | Backtick-free text is only trimmed. |
| JsText.LowerIdempotent | app/page.js:35 | Lower-casing a lower-cased text changes nothing, so the tests that lower-case internally may be given lower-cased input. |
| JsText.TrimBlank | app/page.js:316 | `trim` gives the empty string exactly when the text is all white space. |
| JsText.TrimIdempotent | app/page.js:374 | Trimming twice is trimming once. |
| JsText.JoinSplit | app/page.js:374 | Joining the lines of a split restores the text. |
| JsText.SplitJoin | app/page.js:443 | Splitting newline-free lines joined by "\n" gives them back. |

## Left out

- Network, database and timers: `fetch`, `NextResponse`, the Supabase client and `setTimeout` are replaced by the oracles and parameters described above. Realtime channels and `fetchFrequentHirers` are not part of this model.
- React state: `setError`, `setSuccess`, `setErrorLog`, `setAnalyzing` and the JSX are not modelled. Only the decisions are: the routing, the job and row built, the counters and lists, the message and the text left in the box.
- `handleSubmit` after routing (fetching, showing the error, saving) is not modelled separately. It is the automatic route followed by `saveJobToSupabase`, and both are modelled.
- `handleIndeedSubmit` and `handleManualSubmit` are not part of this model. Their server side is the manual route, which is modelled.
- `extractIndeedJobKey` depends on WHATWG URL parsing and only sets a displayed key, so `WatchUrl` and `Submit` do not record it.
- The classifier request (prompt strings, model name, headers, tools) is not modelled. The classifier's replies are inputs.
- `JSON.parse` and `new Date(v)` are opaque parameters. Ids from `Date.now` and `Math.random`, `toISOString` dates and the error log's `toLocaleTimeString` come in as inputs, or are dropped in the case of the log time.
- JsText.Lower: lower-cases ASCII letters only, not the full Unicode `toLowerCase`.
- JsValue.Value: numbers are integers. Fractions, NaN and the exponent forms of `String(n)` are not modelled.
- JobViews.IsActive: the day arithmetic `(now - submitted) / 86400000 <= 21` is stated in integer milliseconds as `now - submitted <= 21 * 86400000`, which asks the same question.
- AnalyzeRoute.StatusFailure: a status passed through is any integer. The range check of the response constructor (a status outside 200–599 throws) is not modelled.
- AnalyzeManualRoute.StatusPassedThrough: the manual route passes the status through in the same way (app/api/analyze-manual/route.js:27-32), and the same range check is not modelled.
- Concurrency is not modelled: the routes and the bulk loop are sequential.
- Logging is not modelled: the `console.error` calls at app/api/analyze/route.js:118, app/api/analyze-manual/route.js:78, app/page.js:115 and app/page.js:205 only write to the console.
- `setLoading(false)` in `fetchJobs` is React state and is not modelled.
