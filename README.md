# ai-nav link maintenance and listing UI, modelled in Dafny

ai-nav is a Next.js catalogue of AI models, datasets, tutorials, frameworks and
other resources. This project models two parts of it.

**The link-maintenance scripts.**

- `linkChecker.js` loads every resource link from the data files. It checks each
  link in batches through two layers:
  - an HTTP layer: HEAD, then GET, retried up to `maxRetries` times;
  - a headless-browser layer with its own retries and a fallback policy.
  It then writes a report and removes old reports.
- `linkChecker.ts` is the older single-layer checker. It sends one request,
  followed by a GET when that request failed with a connection error.
- `suggestAlternatives.js` and `suggestAlternatives.ts` read the newest check
  report and look up replacement links. The lookup uses either a search API or
  fixture tables.
- `scheduledLinkCheck.js` runs the checker and the suggester, decides which
  e-mail to send, and sweeps old log files.

**The UI helpers.**

- The tutorial data migration (`dataMigration.ts` with the tables of
  `tutorials.ts`).
- The learning-path graph builder.
- The category, search and pagination state of the models, frameworks and
  resources pages.
- The active-link logic of the navigation bar.
- The display rules of the resource card.

**Form.** Each source file is one Dafny module:

- Pure decisions are functions with contracts, plus lemmas that relate them.
- Loops and in-place updates are methods proved equal to a specification
  function.
- Component state (the listing page, the menu, the card, the graph view and
  the flow builder) is a class whose methods state the whole new state.

**Inputs.** Network answers, probe outcomes, directory listings, clocks and
random choices are parameters:

- `Network` gives the outcome of request `(verb, attempt)`.
- `BrowserOracle` gives the outcome of browser attempt `k`.
- `PatternTest` stands for `RegExp.test`.
- `HostOf` stands for `new URL(u).hostname`.
- `pick` stands for the `Math.random` index choice.
- Each directory entry carries a modification time.

**Two details of the code.**

- The TypeScript suggester picks the report with the latest modification
  time, not the greatest file name (`SuggestTs.FindLatestReport`). The
  JavaScript suggester and the scheduler pick the greatest name.
- `checkLink` adds one to `attempts` per pass of its retry loop, whether or
  not that pass sends a GET after the HEAD.

## Model

| member | source | states |
|---|---|---|
| LinkChecker.OrUnknown | ai-nav/scripts/linkChecker.js:473 | an error message is never empty: a missing message becomes `未知错误` |
| LinkChecker.FirstMatchIndex | ai-nav/scripts/linkChecker.js:506-510 | the index of the first special site, in `specialSites` order, whose pattern matches; no earlier site matches |
| LinkChecker.GetSpecialSiteConfig | ai-nav/scripts/linkChecker.js:501-514 | null exactly when no site with a pattern matches the URL; otherwise the first matching site |
| LinkChecker.MinContentLength | ai-nav/scripts/linkChecker.js:430 | the DOM threshold is positive: the site's `minDomContentLength` when non-zero, otherwise 50 |
| LinkChecker.ContentVerdict | ai-nav/scripts/linkChecker.js:394-438 | content is valid iff the body exists with a non-empty box (or the site ignores empty visuals) for `visual`/`both`, and the text reaches the threshold for `dom`/`both`; the error message is the last failing check's |
| LinkChecker.BrowserVerdict | ai-nav/scripts/linkChecker.js:319-490 | disabled layers give the fixed error; a loaded page is `valid` iff the status check and the content check pass, otherwise `invalid` with the reason; a thrown navigation is `timeout` or `error` by its message |
| LinkChecker.BrowserSiteLabelAsWritten | ai-nav/scripts/linkChecker.js:334 | the label that line prints, as written: an own property name of the matched entry under which `specialSites` holds that entry, and none when no such name exists |
| LinkChecker.BrowserSiteLabelAsWrittenIsUndefined | ai-nav/scripts/linkChecker.js:334 | with the shipped sites, the label that line prints is always `undefined`, whatever own keys the entry has |
| LinkChecker.SiteKeyIsName | ai-nav/scripts/linkChecker.js:543-547 | searching the keys of `specialSites` for the matched entry finds its own name |
| LinkChecker.SiteKey | ai-nav/scripts/linkChecker.js:543-547 | the key of `specialSites` holding the matched entry: none iff the entry is not in `specialSites`, otherwise a key under which it is stored |
| LinkChecker.BrowserLog | ai-nav/scripts/linkChecker.js:333-489 | no lines while the browser layer is disabled; otherwise the start line is logged, a matched site first logs the label of line 334 as written (`BrowserSiteLabelAsWritten`), and the last line is the close line or the close error; `BrowserLogProgress` states the progress lines in between |
| LinkChecker.LeadLog | ai-nav/scripts/linkChecker.js:333-338 | one line, or two when a site matched: the site label as written, then the start line |
| LinkChecker.ProgressLog | ai-nav/scripts/linkChecker.js:363-387 | launch, page created, navigating, the settle wait of `waitUntil` ms and the navigation status, cut off where the probe threw (nothing for a failed launch, one line for a failed page, three for a failed navigation) |
| LinkChecker.OutcomeLog | ai-nav/scripts/linkChecker.js:389-486 | a probe that threw logs the error (or 未知错误) first |
| LinkChecker.BrowserLogProgress | ai-nav/scripts/linkChecker.js:333-473 | the browser log holds the progress lines right after the lead lines, and a probe that threw logs its error immediately after them, so the lines logged before the throw are kept |
| LinkChecker.OwnKeys | ai-nav/scripts/linkChecker.js:334 | `Object.keys` of a special-site entry: only names of its own properties |
| LinkChecker.BrowserLogPrintsUndefined | ai-nav/scripts/linkChecker.js:333-334 | with the shipped sites and the browser enabled, the first browser log line names no site, while `checkLink`'s own site line names the entry's key |
| LinkChecker.CheckLinkWithBrowser | ai-nav/scripts/linkChecker.js:319-498 | one browser probe: the verdict of `BrowserVerdict` and the log lines of `BrowserLog`; it is what browser attempt `k` of `checkLink` runs (`RunVerdict`) |
| LinkChecker.GetStep | ai-nav/scripts/linkChecker.js:611-736 | the GET (after a rejected HEAD, or in the HEAD catch) decides the step: accepted iff its answer is accepted, status classified from it, `statusCode` and error message taken from it, attempts unchanged |
| LinkChecker.Attempt | ai-nav/scripts/linkChecker.js:587-737 | an attempt is accepted iff its HEAD or its GET answer is; accepted means `valid` over `http` with an accepted status code; otherwise the status is the GET's classification; attempts grow by one and the earlier log is kept |
| LinkChecker.RunGet | ai-nav/scripts/linkChecker.js:611-736 | the imperative GET branch computes exactly `GetStep` |
| LinkChecker.RunAttempt | ai-nav/scripts/linkChecker.js:587-737 | the imperative loop body computes exactly `Attempt` |
| LinkChecker.RunBrowserAttempts | ai-nav/scripts/linkChecker.js:751-766 | the browser retry loop leaves the last verdict and the log of `BrowserAttempts`; success iff that verdict is `valid` |
| LinkChecker.BrowserAttempts | ai-nav/scripts/linkChecker.js:751-766 | the browser retry loop as a recursion over attempts `k` … `retries`, stopping after the first `valid` verdict; `BrowserAttemptsBound`, `BrowserAttemptsFirstValid` and `BrowserAttemptsNoneValid` state its outcome |
| LinkChecker.RunEscalation | ai-nav/scripts/linkChecker.js:741-788 | the imperative browser layer computes exactly `Escalate` |
| LinkChecker.Conclude | ai-nav/scripts/linkChecker.js:768-788 | the verdict after the browser layer: `valid` over `browser` after a valid attempt, else `valid` over `browser-fallback` under the fallback policy, else the HTTP status with the joined message; `ConcludeFirstValid` and `ConcludeNoneValid` state it |
| LinkChecker.Escalate | ai-nav/scripts/linkChecker.js:741-788 | the browser layer: the escalation line, the browser attempts, then `Conclude`; `EscalateBrowserSuccess`, `EscalateFallback` and `EscalateBothFail` state its outcomes |
| LinkChecker.CheckLink | ai-nav/scripts/linkChecker.js:516-797 | the imperative `checkLink`, with its `for` loop and early returns, computes exactly the specification `CheckLinkSpec` |
| LinkChecker.HttpLayer | ai-nav/scripts/linkChecker.js:587-738 | the HTTP retry loop as a recursion over attempts `k` … `maxRetries`, returning at the first accepted attempt; `HttpLayerAccepted`, `HttpLayerStopsAtFirst` and `HttpLayerExhausted` state its outcome |
| LinkChecker.CheckLinkSpec | ai-nav/scripts/linkChecker.js:516-797 | the whole `checkLink`: special site, HTTP layer, then the browser layer only when HTTP never accepted and layering is on; the `CheckLink…` lemmas of LinkCheckerProps state its outcomes |
| LinkCheckerProps.HttpLayerKeeps | ai-nav/scripts/linkChecker.js:587-738 | the retry loop keeps the resource fields and every earlier log line; at most `maxRetries + 1` attempts; an accepted run is `valid` over `http` |
| LinkCheckerProps.HttpLayerAccepted | ai-nav/scripts/linkChecker.js:587-738 | the HTTP layer succeeds iff some attempt up to `maxRetries` has an accepted HEAD or GET answer |
| LinkCheckerProps.HttpLayerStopsAtFirst | ai-nav/scripts/linkChecker.js:611-701 | the loop returns at the first accepted attempt `j`, after exactly `j + 1` attempts |
| LinkCheckerProps.HttpLayerExhausted | ai-nav/scripts/linkChecker.js:582-738 | with no accepted attempt, all `maxRetries + 1` attempts run and the status is the last GET's classification |
| LinkCheckerProps.BrowserAttemptsBound | ai-nav/scripts/linkChecker.js:751-766 | the browser loop makes at most `retries + 1` attempts, at least one when enabled, and stops early only on a `valid` verdict |
| LinkCheckerProps.BrowserAttemptsFirstValid | ai-nav/scripts/linkChecker.js:761-765 | the browser loop breaks at the first valid attempt `j`, whose verdict is the one kept |
| LinkCheckerProps.BrowserAttemptsNoneValid | ai-nav/scripts/linkChecker.js:751-766 | with no valid verdict, every attempt runs and the last verdict is kept |
| LinkCheckerProps.RunVerdict | ai-nav/scripts/linkChecker.js:759 | browser attempt `i` gives the verdict of `checkLinkWithBrowser` on probe `i` |
| LinkCheckerProps.ConcludeFirstValid | ai-nav/scripts/linkChecker.js:772-776 | a valid browser attempt makes the link `valid` over `browser`, with the browser's status code and verdict |
| LinkCheckerProps.ConcludeNoneValid | ai-nav/scripts/linkChecker.js:777-786 | with no valid attempt, the fallback policy gives `browser-fallback`; without it the HTTP status stays and the error message joins both layers |
| LinkCheckerProps.EscalateBrowserSuccess | ai-nav/scripts/linkChecker.js:741-776 | the browser layer with a first valid attempt `j` makes the link valid by the browser |
| LinkCheckerProps.EscalateFallback | ai-nav/scripts/linkChecker.js:777-781 | the browser layer with no valid attempt and `treatErrorsAsValid` (or a treat-all site) marks the link valid by fallback |
| LinkCheckerProps.EscalateBothFail | ai-nav/scripts/linkChecker.js:782-786 | the browser layer with no valid attempt and no fallback keeps the HTTP status and records the combined message |
| LinkCheckerProps.EscalateNoBrowserAttempt | ai-nav/scripts/linkChecker.js:748-785 | negative `retries`: no browser attempt runs, so reading `browserResult.errorMessage` throws unless the fallback applies |
| LinkCheckerProps.ConcludeAttempted | ai-nav/scripts/linkChecker.js:769 | with `retries >= 0` the result always records a browser check |
| LinkCheckerProps.CheckLinkAccepted | ai-nav/scripts/linkChecker.js:516-631 | an accepted HTTP attempt makes the result `valid` over `http`, with no browser check and 1..`maxRetries + 1` attempts |
| LinkCheckerProps.CheckLinkNotAccepted | ai-nav/scripts/linkChecker.js:738-797 | otherwise all attempts are spent; a non-valid result ends with the all-failed line; without layered checking the last GET's status stands |
| LinkCheckerProps.EscalateKeeps | ai-nav/scripts/linkChecker.js:741-793 | the browser layer keeps the resource, the attempts and the log prefix, and a non-valid end logs the all-failed line |
| LinkCheckerProps.ConcludeKeeps | ai-nav/scripts/linkChecker.js:768-793 | concluding after the browser loop keeps the resource, the attempts and the log prefix |
| LinkCheckerProps.CheckLinkEscalatesOnlyAfterHttp | ai-nav/scripts/linkChecker.js:741 | a browser check is recorded only when layered checking is on and no HTTP attempt was accepted |
| LinkCheckerProps.CheckLinkThrows | ai-nav/scripts/linkChecker.js:748-785 | `checkLink` rejects iff HTTP failed, layering is on, `retries < 0` and no fallback applies |
| LinkPipeline.ExtractItemsFromFile | ai-nav/scripts/linkChecker.js:123-205 | keeps the objects where id, title and link were all found, in order, with the optional category; uses the fallback triples only when none was kept; an unreadable file gives `[]` |
| LinkPipeline.GetAllResources | ai-nav/scripts/linkChecker.js:306-317 | the five collections concatenated in order: models first, total length the sum |
| LinkPipeline.LoadData | ai-nav/scripts/linkChecker.js:10-120 | a missing file, or nothing extracted from all five, gives the built-in sample; otherwise the extracted collections; never empty |
| LinkPipeline.Swap | ai-nav/scripts/linkChecker.js:1233 | swapping two positions keeps the length |
| LinkPipeline.SwapPermutes | ai-nav/scripts/linkChecker.js:1233 | the destructuring swap permutes the array |
| LinkPipeline.ShuffleDownPermutes | ai-nav/scripts/linkChecker.js:1229-1236 | the Fisher–Yates loop from index `i` down keeps the length and the multiset of elements |
| LinkPipeline.ShuffledPermutes | ai-nav/scripts/linkChecker.js:1229-1236 | `shuffleArray` returns a permutation of its input, whatever the random choices |
| LinkPipeline.ShuffleDownIdentity | ai-nav/scripts/linkChecker.js:1231-1233 | when every random index is the current one, the shuffle changes nothing |
| LinkPipeline.ShuffleArray | ai-nav/scripts/linkChecker.js:1229-1236 | the imperative shuffle returns exactly `Shuffled(input, pick)`, a permutation of the input |
| LinkPipeline.Shuffled | ai-nav/scripts/linkChecker.js:1229-1236 | the Fisher–Yates shuffle of a copy, swapping cell `i` with the chosen cell `pick(i)` from the last index down; `ShuffledPermutes` proves it a permutation |
| LinkPipeline.TestLimit | ai-nav/scripts/linkChecker.js:1180 | in test mode the limit is never 0: `limitCount`, or 10 when that is 0; outside test mode it is 0 |
| LinkPipeline.SlicePrefix | ai-nav/scripts/linkChecker.js:1198 | `slice(0, end)` is a prefix, with JavaScript's length rule for a negative end |
| LinkPipeline.SelectForTest | ai-nav/scripts/linkChecker.js:1180-1201 | test mode with more resources than `limitCount` (10 when 0) checks a prefix of a shuffle, a sub-multiset of the resources; otherwise all resources |
| LinkPipeline.PrefixSubMultiset | ai-nav/scripts/linkChecker.js:1198 | a prefix holds no element more often than the whole |
| LinkPipeline.CheckOne | ai-nav/scripts/linkChecker.js:809 | checking resource `k` gives its `checkLink` outcome |
| LinkPipeline.CheckBatch | ai-nav/scripts/linkChecker.js:808-812 | `Promise.all` over a batch rejects iff some link in it throws; otherwise its results are those links' results, in order |
| LinkPipeline.CheckNext | ai-nav/scripts/linkChecker.js:809 | one more resource of the batch: its result is appended, or the batch rejects |
| LinkPipeline.AgreesStep | ai-nav/scripts/linkChecker.js:812 | appending the next link's result keeps the results in agreement with the per-link outcomes |
| LinkPipeline.CheckAllLinks | ai-nav/scripts/linkChecker.js:799-820 | `checkAllLinks` resolves iff no link throws; it then returns one result per resource, in order, each that resource's `checkLink` outcome |
| LinkPipeline.AgreesConcat | ai-nav/scripts/linkChecker.js:812 | two agreeing stretches of results join into one |
| LinkPipeline.AgreesAll | ai-nav/scripts/linkChecker.js:799-820 | results that agree from index 0 over every resource are exactly the per-link outcomes |
| Tally.IndexOf | ai-nav/scripts/linkChecker.js:985-988 | finds the position of a category already counted, or says none has that key |
| Tally.TallyOf | ai-nav/scripts/linkChecker.js:983-990 | the category dictionary built by the `forEach`: each item bumps its key; `TallyOfCounts` states that the result counts every key exactly |
| Tally.SumCountsUpdate | ai-nav/scripts/linkChecker.js:989 | raising one count raises the total by one |
| Tally.BumpFound | ai-nav/scripts/linkChecker.js:984-990 | counting a key already present keeps the tally exact for the extended multiset |
| Tally.BumpMissing | ai-nav/scripts/linkChecker.js:986-988 | counting a new key appends it with count 1 and keeps the tally exact |
| Tally.TallySummarizes | ai-nav/scripts/linkChecker.js:983-990 | the tally of a sequence counts every key exactly as often as it occurs |
| Tally.TallySum | ai-nav/scripts/linkChecker.js:1082-1084 | the counts of the tally add up to the number of items |
| Tally.TallyOfCounts | ai-nav/scripts/linkChecker.js:983-1084 | distinct keys; every count is the key's multiplicity and positive; every item has a key; the counts sum to the length |
| Tally.CountByKey | ai-nav/scripts/linkChecker.js:983-990 | the imperative `forEach` grouping computes exactly `TallyOf` |
| LinkReport.CategoryKey | ai-nav/scripts/linkChecker.js:985 | a problem link counts under its category, or under `未分类` when that is missing or empty |
| LinkReport.StatusesPartitionProblems | ai-nav/scripts/linkChecker.js:976-980 | the counts of `invalid`, `timeout` and `error` problem links add up to the number of problem links |
| LinkReport.MethodStatsBound | ai-nav/scripts/linkChecker.js:964-968 | the per-method success counts add up to at most the valid links |
| LinkReport.GenerateReport | ai-nav/scripts/linkChecker.js:959-1125 | totals and valid/invalid split; per-status counts over the problem links; an exact per-category tally; method statistics; `problemLinks` and `allLinks` as projections of the results |
| LinkCheckerTs.Answered | ai-nav/scripts/linkChecker.ts:74-114 | an answer sets `statusCode`; it is `valid` iff the status is in `validStatusCodes`, otherwise `invalid` with `HTTP status: n` |
| LinkCheckerTs.CheckLinkSpec | ai-nav/scripts/linkChecker.ts:47-136 | the first request always comes first; a GET follows iff it failed with ECONNABORTED or ECONNREFUSED; the result reflects the last request made |
| LinkCheckerTs.TimeoutNeedsTwoFailures | ai-nav/scripts/linkChecker.ts:88-131 | `timeout` iff the first request failed with a connection error and the GET failed with ECONNABORTED; the later ECONNABORTED test cannot fire |
| LinkCheckerTs.CheckLink | ai-nav/scripts/linkChecker.ts:47-136 | the imperative `checkLink` computes exactly `CheckLinkSpec` |
| LinkCheckerTs.CheckBatch | ai-nav/scripts/linkChecker.ts:147-152 | a batch yields one result per resource in it, in order |
| LinkCheckerTs.CheckAllLinks | ai-nav/scripts/linkChecker.ts:138-160 | one result per resource, in order, each that resource's `checkLink` result |
| LinkCheckerTs.CategoryKey | ai-nav/scripts/linkChecker.ts:176 | a problem link counts under its category, or under `未分类` |
| LinkCheckerTs.GenerateReport | ai-nav/scripts/linkChecker.ts:162-230 | totals, per-status counts, an exact per-category tally, the problem links and all results |
| ReportFiles.Greatest | ai-nav/scripts/suggestAlternatives.js:555 | the first name after the descending sort is one of the names |
| ReportFiles.GreatestIsMax | ai-nav/scripts/suggestAlternatives.js:555 | that name is at least every other name in the order |
| ReportFiles.NewestByNameSpec | ai-nav/scripts/suggestAlternatives.js:546-557 | none iff no name has the prefix and suffix; otherwise a matching name that is greatest among the matching names |
| ReportFiles.NewestByName | ai-nav/scripts/suggestAlternatives.js:546-557 | the filter by prefix and suffix followed by the head of the descending sort; `NewestByNameSpec` states which name it picks |
| Retention.SweepLosesNothing | ai-nav/scripts/linkChecker.js:1156-1165 | each file is either kept or removed, never both, never lost |
| Retention.SweepFrom | ai-nav/scripts/linkChecker.js:1156-1168 | the `forEach` of a cleanup as a recursion: each expired file is removed, the others kept, and a throwing `statSync` or `unlinkSync` stops the sweep; the `Sweep…` lemmas state its outcome |
| Retention.SweepRemovesOnlyExpired | ai-nav/scripts/linkChecker.js:1161-1163 | only files older than the retention period are removed |
| Retention.SweepFailsIff | ai-nav/scripts/linkChecker.js:1152-1168 | the sweep throws iff some file's stat fails, or an expired file cannot be removed, before the run is over |
| Retention.SweepLeavesNoExpired | ai-nav/scripts/linkChecker.js:1156-1165 | a sweep that completes leaves no expired file |
| Retention.SweepStops | ai-nav/scripts/linkChecker.js:1166-1168 | a throwing `statSync` or `unlinkSync` stops the sweep with everything from that file on kept |
| Retention.SweepAdvance | ai-nav/scripts/linkChecker.js:1156-1165 | one file of the `forEach`: removed when expired, else kept |
| Retention.CleanupOldFiles | ai-nav/scripts/scheduledLinkCheck.js:215-240 | an unreadable directory changes nothing; otherwise what remains is the sweep's kept files, and the count of removed files is reported iff nothing threw |
| Retention.CleanupOldReports | ai-nav/scripts/linkChecker.js:1150-1170 | report cleanup is the sweep with `reportRetentionDays` |
| SuggestJs.FixtureResults | ai-nav/scripts/suggestAlternatives.js:111-128 | every fixture entry holds two suggestions |
| SuggestJs.FirstFixture | ai-nav/scripts/suggestAlternatives.js:133-138 | the first fixture key, in declaration order, that some keyword matches |
| SuggestJs.GetPredefinedResults | ai-nav/scripts/suggestAlternatives.js:111-143 | never empty: the first matching fixture entry's suggestions, or the generic two when no key matches |
| SuggestJs.Keywords | ai-nav/scripts/suggestAlternatives.js:129 | the lower-cased query split at every single space; an empty keyword arises from adjacent spaces (`DoubleSpaceSelectsFirst`) |
| SuggestJs.EmptyKeywordSelectsFirst | ai-nav/scripts/suggestAlternatives.js:133-136 | an empty keyword is included in every key, so `gpt4` is chosen |
| SuggestJs.DoubleSpaceSelectsFirst | ai-nav/scripts/suggestAlternatives.js:133 | a query with two adjacent spaces always gets the `gpt4` suggestions |
| SuggestJs.BackendOf | ai-nav/scripts/suggestAlternatives.js:19-83 | Google is used iff real searches are on, the provider is `google` and both its credentials are set; Bing likewise with its key |
| SuggestJs.SearchUsingApi | ai-nav/scripts/suggestAlternatives.js:19-108 | the fixture when no API applies, else the chosen API's items |
| SuggestJs.EmptyOnlyFromApi | ai-nav/scripts/suggestAlternatives.js:67-71 | only an API call can give no suggestions, and a failing Google call does |
| SuggestJs.BuildQuery | ai-nav/scripts/suggestAlternatives.js:418 | the query is trimmed: no leading or trailing white space; `DomainQuery` and `NoDomainQuery` give its exact text |
| SuggestJs.DomainQuery | ai-nav/scripts/suggestAlternatives.js:418 | with a host, the query is the title, `alternative to` and the host, and the category, single-spaced |
| SuggestJs.NoDomainQuery | ai-nav/scripts/suggestAlternatives.js:418 | without a host the query keeps two spaces between title and category |
| SuggestJs.NoDomainSelectsFirst | ai-nav/scripts/suggestAlternatives.js:133-418 | so every problem link whose URL does not parse gets the `gpt4` fixture |
| SuggestJs.QueriesFor | ai-nav/scripts/suggestAlternatives.js:413-418 | one query per problem link, in order |
| SuggestJs.PacedTraceShape | ai-nav/scripts/suggestAlternatives.js:413-433 | searches alternate with pauses: one pause between consecutive searches, none after the last |
| SuggestJs.PacedTrace | ai-nav/scripts/suggestAlternatives.js:413-433 | the order of searches and pauses of the loop: the searches in order with a pause before every search but the first; `PacedTraceShape` states its shape |
| SuggestJs.Entries | ai-nav/scripts/suggestAlternatives.js:413-428 | one entry per problem link, pairing it with its search results |
| SuggestJs.EntriesSearchApi | ai-nav/scripts/suggestAlternatives.js:418-426 | with the API searcher, entry `k` holds `searchUsingAPI` of link `k`'s query |
| SuggestJs.PacedPrefixStep | ai-nav/scripts/suggestAlternatives.js:421-433 | one loop pass adds its search and, unless last, a pause |
| SuggestJs.SearchAll | ai-nav/scripts/suggestAlternatives.js:413-434 | the imperative loop produces exactly the entries and the paced trace |
| SuggestJs.SearchOne | ai-nav/scripts/suggestAlternatives.js:414-431 | one pass: the entry pairs link `i` with the `i`-th search for its query, and a pause follows unless the link is the last |
| SuggestJs.SearchAllStep | ai-nav/scripts/suggestAlternatives.js:413-432 | one pass extends the entries and the trace of the first `i` links to those of the first `i + 1` |
| SuggestJs.FindAlternativeLinks | ai-nav/scripts/suggestAlternatives.js:384-466 | no report, an unparsable report or no problem links gives nothing and no search; otherwise the report counts the links, lists the entries, and counts entries with alternatives |
| SuggestJs.FindLatestReport | ai-nav/scripts/suggestAlternatives.js:534-563 | none for a missing or unreadable directory, else the greatest `link-check-report-*.json` name |
| BracketScan.QuoteEnd | ai-nav/scripts/suggestAlternatives.js:258-266 | the first matching quote not preceded by a backslash, or the end |
| BracketScan.LineEnd | ai-nav/scripts/suggestAlternatives.js:271-276 | the first newline from there, or the end |
| BracketScan.BlockEnd | ai-nav/scripts/suggestAlternatives.js:277-283 | the first `*/` from there, or the end |
| BracketScan.ScanFromFound | ai-nav/scripts/suggestAlternatives.js:254-305 | the scan gives -1 or the position of a `]` |
| BracketScan.QuotedRun | ai-nav/scripts/suggestAlternatives.js:258-266 | jumping over a string literal agrees with reading it one character at a time |
| BracketScan.LineCommentRun | ai-nav/scripts/suggestAlternatives.js:271-276 | jumping over a line comment agrees with the character automaton |
| BracketScan.BlockCommentRun | ai-nav/scripts/suggestAlternatives.js:277-283 | jumping over a block comment agrees with the character automaton |
| BracketScan.ScanFromIsRun | ai-nav/scripts/suggestAlternatives.js:254-305 | the jumping scan equals the reference automaton from every position |
| BracketScan.ScanFrom | ai-nav/scripts/suggestAlternatives.js:254-305 | the scan of the source loop, jumping over quoted strings and comments and counting `[`/`]` depth; `ScanFromFound` and `ScanFromIsRun` state what it finds |
| BracketScan.Run | ai-nav/scripts/suggestAlternatives.js:254-305 | the reference automaton that reads one character at a time in code, string or comment mode; `ScanFromIsRun` ties the scan to it |
| BracketScan.PlainTextIgnored | ai-nav/scripts/suggestAlternatives.js:285-295 | characters that are no quote, slash or bracket do not affect the scan |
| BracketScan.SkipString | ai-nav/scripts/suggestAlternatives.js:258-266 | the inner `while` stops at `QuoteEnd` |
| BracketScan.SkipLineComment | ai-nav/scripts/suggestAlternatives.js:271-276 | the inner `while` stops at `LineEnd` |
| BracketScan.SkipBlockComment | ai-nav/scripts/suggestAlternatives.js:277-283 | the inner `while` stops at `BlockEnd` |
| BracketScan.FindClosingBracket | ai-nav/scripts/suggestAlternatives.js:252-305 | the imperative loop finds the matching `]` after the `[`, or -1, equal to the reference automaton |
| SuggestTs.FirstKey | ai-nav/scripts/suggestAlternatives.ts:158-161 | the first key, in object order, that satisfies the test |
| SuggestTs.Lookup | ai-nav/scripts/suggestAlternatives.ts:153-169 | an exact key wins; else the first key related by case-insensitive inclusion; else `[]` |
| SuggestTs.LookupEmptyIff | ai-nav/scripts/suggestAlternatives.ts:153-169 | with non-empty fixture lists, the lookup is empty iff no key is similar |
| SuggestTs.SearchWithPredefinedResults | ai-nav/scripts/suggestAlternatives.ts:91-170 | the result is `[]` or one of the fixture lists |
| SuggestTs.EmptyTitleMatchesGpt4 | ai-nav/scripts/suggestAlternatives.ts:158-161 | an empty title is included in every key, so the first key, `GPT-4`, is chosen |
| SuggestTs.SearchQuery | ai-nav/scripts/suggestAlternatives.ts:25 | the query starts with the title and a space, holds the category (or nothing) in between, and ends with ` official site`; without a category two spaces follow the title |
| SuggestTs.GoogleLinks | ai-nav/scripts/suggestAlternatives.ts:55-63 | at most the first three links of the items, `[]` otherwise |
| SuggestTs.SearchUsingApi | ai-nav/scripts/suggestAlternatives.ts:19-41 | the fixture when real search is off or the API type is unknown; else the chosen API's links |
| SuggestTs.ApiFailureGivesNothing | ai-nav/scripts/suggestAlternatives.ts:60-63 | a failing Google call gives no suggestions; the outer fixture fallback is never reached |
| SuggestTs.LinksWithAlternatives | ai-nav/scripts/suggestAlternatives.ts:193-205 | one entry per problem link, with its domain, suggestions and `hasAlternatives` flag |
| SuggestTs.WithAlternatives | ai-nav/scripts/suggestAlternatives.ts:193-205 | one entry: the problem link, its domain, its suggestions and `hasAlternatives` iff there is a suggestion; `LinksWithAlternatives` states it per link |
| SuggestTs.FindAlternativeLinks | ai-nav/scripts/suggestAlternatives.ts:173-217 | nothing for an unparsable report or no problem links; otherwise the counts and the entries, with and without alternatives adding up |
| SuggestTs.FirstNewest | ai-nav/scripts/suggestAlternatives.ts:309 | the first file with the greatest modification time |
| SuggestTs.NewestReport | ai-nav/scripts/suggestAlternatives.ts:304-318 | a failing stat throws, no file gives none, otherwise the first newest file |
| SuggestTs.FindLatestReport | ai-nav/scripts/suggestAlternatives.ts:296-319 | none iff the directory is missing; an uncaught error iff it exists but cannot be listed; otherwise the newest of the check reports |
| SuggestTs.NoCheckReportNoReport | ai-nav/scripts/suggestAlternatives.ts:304-314 | a directory without any `link-check-report-*.json` file gives no report |
| Scheduler.Header | ai-nav/scripts/scheduledLinkCheck.js:68-74 | the e-mail opens with five fixed lines |
| Scheduler.More | ai-nav/scripts/scheduledLinkCheck.js:83-85 | one "and n more" line exactly when there are more than ten links |
| Scheduler.EmailLinesShape | ai-nav/scripts/scheduledLinkCheck.js:67-91 | the lines: the header, one item per previewed link (at most ten), the overflow line, the footer |
| Scheduler.EmailLines | ai-nav/scripts/scheduledLinkCheck.js:67-90 | the lines of the problem e-mail: header, the first ten links, the overflow line, footer; `EmailLinesShape` and `EmailListItems` state its shape |
| Scheduler.HeaderHasNoItem | ai-nav/scripts/scheduledLinkCheck.js:68-74 | the header holds no list item |
| Scheduler.ItemsAreItems | ai-nav/scripts/scheduledLinkCheck.js:78-80 | every previewed link is a list item |
| Scheduler.MoreIsItem | ai-nav/scripts/scheduledLinkCheck.js:83-85 | the overflow line is a list item |
| Scheduler.FooterHasNoItem | ai-nav/scripts/scheduledLinkCheck.js:87-88 | the footer holds no list item |
| Scheduler.EmailListItems | ai-nav/scripts/scheduledLinkCheck.js:67-91 | the e-mail lists min(n, 10) links plus one overflow item when n > 10 |
| Scheduler.PrepareEmailContent | ai-nav/scripts/scheduledLinkCheck.js:67-91 | the imperative builder returns exactly those lines joined by newlines |
| Scheduler.CheckLinks | ai-nav/scripts/scheduledLinkCheck.js:93-155 | rejects on a failed run, unreadable directory or unreadable report; no check report means `success: false`; otherwise the newest report and readable report |
| Scheduler.SuggestAlternatives | ai-nav/scripts/scheduledLinkCheck.js:158-212 | the same for the suggester and the newest alternatives report |
| Scheduler.CheckedIsNewest | ai-nav/scripts/scheduledLinkCheck.js:113-124 | the report read is a check report, and no later-named one exists |
| Scheduler.NoReportIff | ai-nav/scripts/scheduledLinkCheck.js:117-121 | `success: false` iff the run worked and no name is a check report |
| Scheduler.Notify | ai-nav/scripts/scheduledLinkCheck.js:33-63 | a send of the mail is attempted iff e-mail is enabled, otherwise it is only logged; either way it is the mail asked for; a failed send is caught, so `Notify` never throws |
| Scheduler.NoReportDoesNothing | ai-nav/scripts/scheduledLinkCheck.js:250-253 | a check with `success: false` ends the run with no mail and no cleanup |
| Scheduler.CleanupIff | ai-nav/scripts/scheduledLinkCheck.js:297-298 | old logs are swept iff the check gave a report and, when there were problems, the suggester did not throw |
| Scheduler.SuggesterIff | ai-nav/scripts/scheduledLinkCheck.js:258-261 | the suggester runs iff the report has problem links |
| Scheduler.ProblemsMailIff | ai-nav/scripts/scheduledLinkCheck.js:263-276 | the problems mail goes out iff there are problems, the suggester succeeded and `sendOnProblems` is set |
| Scheduler.AllClearMailIff | ai-nav/scripts/scheduledLinkCheck.js:280-294 | the all-clear mail goes out iff there are no problems and `sendOnSuccess` is set |
| Scheduler.ErrorMailIff | ai-nav/scripts/scheduledLinkCheck.js:301-316 | the error mail goes out iff a child run threw and `sendOnErrors` is set; then no cleanup happens |
| Scheduler.DisabledSendsNothing | ai-nav/scripts/scheduledLinkCheck.js:34-37 | with e-mail disabled nothing is sent |
| Scheduler.AtMostOneMail | ai-nav/scripts/scheduledLinkCheck.js:243-317 | one run produces at most one mail |
| Scheduler.ScheduledRun | ai-nav/scripts/scheduledLinkCheck.js:243-317 | the effects of `main` given the two child-run outcomes: suggester run, mail and log sweep; the `…Iff` lemmas state each effect |
| Scheduler.CleanupOldLogs | ai-nav/scripts/scheduledLinkCheck.js:215-240 | the log sweep with `logRetentionDays`, reporting how many files it removed |
| DataMigration.LookupOr | ai-nav/app/utils/dataMigration.ts:53 | `map[key] \|\| default`: the table's value for a listed key, otherwise the default |
| DataMigration.MapCategoryToPrimary | ai-nav/app/utils/dataMigration.ts:39-54 | always a primary category other than `all`; `other` iff the category is not in the table; the three foundations categories map to `foundations` |
| DataMigration.LookupOrUnique | ai-nav/app/utils/dataMigration.ts:53 | a value that occurs once in the table is reached only from its key |
| DataMigration.CategoryTableFacts | ai-nav/app/utils/dataMigration.ts:40-51 | the ten keys are distinct and the seven single-use values occur once |
| DataMigration.CategoryOneToOne | ai-nav/app/utils/dataMigration.ts:44-50 | each of the seven other primary categories comes from exactly one source category |
| DataMigration.MatchingIgnoresCase | ai-nav/app/utils/dataMigration.ts:61 | keyword matching is the same on lower-cased tags |
| DataMigration.InferSubCategories | ai-nav/app/utils/dataMigration.ts:59-127 | the imperative inference returns exactly `InferredSubCategories` |
| DataMigration.InferredSubCategories | ai-nav/app/utils/dataMigration.ts:59-127 | the matched sub-categories of the primary category, or `['all']` when none matched or the category has no matchers; `InferredAllIff` and `InferredWithinSubCategories` state its properties |
| DataMigration.PushMatching | ai-nav/app/utils/dataMigration.ts:115-123 | the `for … of` loop pushes exactly the matching sub-categories, in table order |
| DataMigration.MatchedStep | ai-nav/app/utils/dataMigration.ts:118-121 | one loop pass appends the row's sub-category iff one of its keywords matches |
| DataMigration.MatchedMembership | ai-nav/app/utils/dataMigration.ts:118-121 | a sub-category is inferred iff some row with that name has a matching keyword |
| DataMigration.MatchedSound | ai-nav/app/utils/dataMigration.ts:118-121 | every inferred sub-category has a matching row |
| DataMigration.MatchedComplete | ai-nav/app/utils/dataMigration.ts:118-121 | every matching row's sub-category is inferred |
| DataMigration.MatchedCons | ai-nav/app/utils/dataMigration.ts:118-121 | the first row decides the head of the result |
| DataMigration.MatchedDistinct | ai-nav/app/utils/dataMigration.ts:118-121 | rows with distinct names give distinct inferred sub-categories |
| DataMigration.TablesAgree | ai-nav/app/utils/dataMigration.ts:64-112 | every primary category has a sub-category list; every matcher table belongs to a primary category and lists its sub-categories after `all` |
| DataMigration.RowsAgree | ai-nav/app/utils/dataMigration.ts:64-112 | each of the eight matcher tables names the sub-categories of `tutorials.ts` after `all`, in order |
| DataMigration.SubCategoriesDistinct | ai-nav/app/data/tutorials.ts:44-102 | every sub-category list is free of duplicates |
| DataMigration.RowsDistinct | ai-nav/app/data/tutorials.ts:44-102 | the eight non-trivial lists are free of duplicates |
| DataMigration.MatchedAllIff | ai-nav/app/utils/dataMigration.ts:115-126 | matching never yields `all` itself; it yields nothing iff no row matches |
| DataMigration.MatchedWithin | ai-nav/app/utils/dataMigration.ts:115-123 | inferred sub-categories are distinct and listed for the primary category |
| DataMigration.InferredAllIff | ai-nav/app/utils/dataMigration.ts:115-126 | the result is never empty, and is `['all']` iff there is no table or no row matches |
| DataMigration.InferredWithinSubCategories | ai-nav/app/utils/dataMigration.ts:59-127 | for a primary category, the inferred list is duplicate-free and within its `SUB_CATEGORIES` list |
| DataMigration.FirstMentioned | ai-nav/app/utils/dataMigration.ts:135-152 | the code of the first language whose markers the text mentions, else the default |
| DataMigration.InferLanguage | ai-nav/app/utils/dataMigration.ts:132-153 | always a code of `LANGUAGE_NAMES` other than `all` and `other` |
| DataMigration.MarkerCodesNamed | ai-nav/app/data/tutorials.ts:136-147 | every code the inference returns is named in `LANGUAGE_NAMES` |
| DataMigration.MarkerCodesDistinct | ai-nav/app/utils/dataMigration.ts:135-152 | the seven language codes and `en` are distinct |
| DataMigration.FirstMentionedPriority | ai-nav/app/utils/dataMigration.ts:135-152 | language `k` is chosen iff it is mentioned and no earlier one is |
| DataMigration.LanguagePriority | ai-nav/app/utils/dataMigration.ts:133-149 | the same for the tags joined by spaces and lower-cased |
| DataMigration.EnglishByDefault | ai-nav/app/utils/dataMigration.ts:151-152 | `en` iff no language marker is mentioned |
| DataMigration.Migrate | ai-nav/app/utils/dataMigration.ts:9-32 | the record keeps its own fields, its tags become topics, and the three inferred fields are filled in |
| DataMigration.MigrateTutorialsData | ai-nav/app/utils/dataMigration.ts:8-34 | one migrated record per tutorial, in order |
| DataMigration.MigratedRecordsConsistent | ai-nav/app/utils/dataMigration.ts:8-34 | every migrated record has a known primary category, with duplicate-free sub-categories from its list and a named language |
| LearningPathGraph.LayoutMapFacts | ai-nav/app/components/LearningPathGraph.tsx:139-149 | `layoutMap` places the root, foundations and tools, and has no empty id |
| LearningPathGraph.Handles | ai-nav/app/components/LearningPathGraph.tsx:205-216 | tools gets top handles; every other node has its source on the right and its target on the left |
| LearningPathGraph.NodeFor | ai-nav/app/components/LearningPathGraph.tsx:190-216 | the node takes its id, its fixed position, its caption and description (or `''`), its category and its handles |
| LearningPathGraph.EdgeFor | ai-nav/app/components/LearningPathGraph.tsx:221-246 | the edge `e<parent>-<id>` runs parent to child; it is smoothstep iff it goes from deep learning to a right branch; it is animated iff the parent or child is selected |
| LearningPathGraph.FollowsConcat | ai-nav/app/components/LearningPathGraph.tsx:250-254 | two emitted child subtrees still hang below the same parent |
| LearningPathGraph.FollowsUnder | ai-nav/app/components/LearningPathGraph.tsx:218-254 | a node pushed with its edge, then its subtree, hangs below the edge's source |
| LearningPathGraph.EmittedFollows | ai-nav/app/components/LearningPathGraph.tsx:182-256 | each emitted edge targets the node pushed with it and starts at an earlier node or the parent |
| LearningPathGraph.EmittedChildrenFollow | ai-nav/app/components/LearningPathGraph.tsx:250-254 | the same for the first `k` children |
| LearningPathGraph.PlacedConcat | ai-nav/app/components/LearningPathGraph.tsx:188 | joining two flows whose node ids are all `layoutMap` keys and whose edges are all undotted gives a flow with both properties |
| LearningPathGraph.EmittedPlaced | ai-nav/app/components/LearningPathGraph.tsx:182-256 | emitted nodes are all in `layoutMap`; an unplaced node emits nothing; a placed one emits itself first |
| LearningPathGraph.Emitted | ai-nav/app/components/LearningPathGraph.tsx:182-256 | what `createNodesAndEdges` emits for a node: nothing when it is not in `layoutMap`, otherwise its node, its edge from the parent and its children's flows in order; `EmittedPlaced` and `EmittedFollows` state its properties |
| LearningPathGraph.ChildrenPlaced | ai-nav/app/components/LearningPathGraph.tsx:250-254 | the children's emitted nodes are all placed |
| LearningPathGraph.FlowIsTree | ai-nav/app/components/LearningPathGraph.tsx:151-270 | the drawing starts with the root at the root position; every other node is placed; with a non-empty root id, edge k leads to node k+1 from an earlier node |
| LearningPathGraph.BuildFlow | ai-nav/app/components/LearningPathGraph.tsx:151-270 | the root node at `layoutMap['root']` followed by the flows of the root's children; `FlowIsTree` states that the drawing is a tree |
| LearningPathGraph.FlowPlaced | ai-nav/app/components/LearningPathGraph.tsx:155-266 | the root node comes first at `layoutMap['root']`; every other node's id is a `layoutMap` key; no edge is dotted |
| LearningPathGraph.FlowEdgesAttach | ai-nav/app/components/LearningPathGraph.tsx:221-266 | every edge of the drawing attaches its node to an earlier node |
| LearningPathGraph.RootedAttach | ai-nav/app/components/LearningPathGraph.tsx:259-266 | the root followed by flows hanging below it is drawn top-down |
| LearningPathGraph.RootedAttachAt | ai-nav/app/components/LearningPathGraph.tsx:259-266 | the same for a single edge `k` |
| LearningPathGraph.SkippedSubtree | ai-nav/app/components/LearningPathGraph.tsx:188 | a node not in `layoutMap` hides its whole subtree |
| LearningPathGraph.FlowBuilder.constructor | ai-nav/app/components/LearningPathGraph.tsx:151-152 | both lists start empty |
| LearningPathGraph.FlowBuilder.MakeFlowNode | ai-nav/app/components/LearningPathGraph.tsx:190-216 | the node object with its handle fix-up is `NodeFor` |
| LearningPathGraph.FlowBuilder.PushRoot | ai-nav/app/components/LearningPathGraph.tsx:155-259 | pushes the root node and no edge |
| LearningPathGraph.FlowBuilder.CreateNodesAndEdges | ai-nav/app/components/LearningPathGraph.tsx:182-256 | the recursive pusher appends exactly the node's emitted flow to both lists |
| LearningPathGraph.FlowBuilder.PushNodeAndEdge | ai-nav/app/components/LearningPathGraph.tsx:218-247 | pushes the node, and its edge when there is a parent |
| LearningPathGraph.FlowBuilder.CreateChildren | ai-nav/app/components/LearningPathGraph.tsx:250-254 | the `forEach` over children appends each child's emitted flow in order |
| LearningPathGraph.DottedCount | ai-nav/app/components/LearningPathGraph.tsx:283-303 | the number of dashed edges; zero iff none is dashed |
| LearningPathGraph.DottedCountAppend | ai-nav/app/components/LearningPathGraph.tsx:303 | appending edges adds their dashed count |
| LearningPathGraph.PathGraphView.constructor | ai-nav/app/components/LearningPathGraph.tsx:109-113 | empty drawing, nothing selected, the ref flag clear |
| LearningPathGraph.PathGraphView.Load | ai-nav/app/components/LearningPathGraph.tsx:135-272 | the drawing becomes the flow built from the data and the current selection; the ref flag is reset |
| LearningPathGraph.PathGraphView.AddDottedEdge | ai-nav/app/components/LearningPathGraph.tsx:275-307 | appends the dashed foundations-to-tools edge once, only when both nodes exist, and sets the ref flag |
| LearningPathGraph.PathGraphView.NodeClick | ai-nav/app/components/LearningPathGraph.tsx:116-127 | selects the node; navigates to `/tutorials?category=<c>` iff it has a non-empty category |
| LearningPathGraph.PathGraphView.PaneClick | ai-nav/app/components/LearningPathGraph.tsx:130-132 | clears the selection and changes nothing else |
| LearningPathGraph.AtMostOneDottedEdge | ai-nav/app/components/LearningPathGraph.tsx:277-305 | the effect never draws a second dashed edge |
| Listing.SearchIgnoresQueryCase | ai-nav/app/models/page.tsx:25-28 | the search gives the same answer for a query and its lower-cased form |
| Listing.FilterByCategory | ai-nav/app/models/page.tsx:23-31 | an item is listed iff it is in the data, in the tab's category (or the tab is All) and matches the search |
| Listing.MatchesSearch | ai-nav/app/models/page.tsx:25-28 | an empty query matches everything; otherwise a case-insensitive substring of the title, the description or some tag; `SearchIgnoresQueryCase` states the case rule |
| Listing.FilterMembershipAll | ai-nav/app/frameworks/page.tsx:23-31 | `filter` keeps exactly the items that pass |
| Listing.AllTabListsEverything | ai-nav/app/models/page.tsx:23-31 | the All tab with an empty query lists every item, in order |
| Listing.FilterResources | ai-nav/app/resources/page.tsx:31-40 | a resource is listed iff its mapped tab category is `all` or its own, and it matches the search |
| Listing.ResourceTabs | ai-nav/app/resources/page.tsx:23-33 | All matches every resource; an unmapped tab matches none; any other tab matches exactly its category |
| Listing.Visible | ai-nav/app/models/page.tsx:34 | the first min(n, 9·page) filtered items |
| Listing.HasMoreItems | ai-nav/app/models/page.tsx:35 | more items remain iff 9·page is below the filtered count |
| Listing.LoadMoreWhileItemsRemain | ai-nav/app/models/page.tsx:48-65 | loading only while items remain never adds an empty page, and shows more items |
| Listing.Toggled | ai-nav/app/models/page.tsx:68-73 | flips that card's flag, where a missing flag reads as false, and leaves every other card's flag alone |
| Listing.ToggleTwice | ai-nav/app/models/page.tsx:68-73 | toggling twice restores every flag |
| Listing.ListingPage.constructor | ai-nav/app/models/page.tsx:11-20 | All tab, empty query, page 1, no expanded cards |
| Listing.ListingPage.SetActiveCategory | ai-nav/app/models/page.tsx:11-45 | sets the tab; the page returns to 1 iff the tab changed |
| Listing.ListingPage.SetSearchQuery | ai-nav/app/models/page.tsx:12-45 | sets the query; the page returns to 1 iff the query changed |
| Listing.ListingPage.LoadMore | ai-nav/app/models/page.tsx:38-40 | one more page, nothing else changes |
| Listing.ListingPage.ToggleDescription | ai-nav/app/resources/page.tsx:77-82 | the expanded map becomes `Toggled`, nothing else changes |
| Listing.FormatLink | ai-nav/app/frameworks/page.tsx:76-78 | a link starting with `http` is kept, others get `https://`; the result starts with `http` |
| Listing.FormatLinkIdempotent | ai-nav/app/frameworks/page.tsx:76-78 | formatting a formatted link changes nothing |
| Navbar.IsActive | ai-nav/app/components/Navbar.tsx:12-17 | the home link is active only on `/`; any other link is active iff the path starts with it |
| Navbar.ActiveBelowSection | ai-nav/app/components/Navbar.tsx:16 | a section link stays active on every longer path |
| Navbar.ModelsActiveOnLongerName | ai-nav/app/components/Navbar.tsx:16 | `/models` is active on `/models/x` and on `/modelsx`; `/` is not active on `/models` |
| Navbar.ClassSuffixes | ai-nav/app/components/Navbar.tsx:24-38 | only the active class strings end in `active-link` and `bg-blue-50 font-semibold` |
| Navbar.LinkClassName | ai-nav/app/components/Navbar.tsx:20-28 | starts with the shared base, and ends in `active-link` iff the link is active |
| Navbar.MobileLinkClassName | ai-nav/app/components/Navbar.tsx:31-39 | starts with the mobile base, and ends in `bg-blue-50 font-semibold` iff active |
| Navbar.Menu.constructor | ai-nav/app/components/Navbar.tsx:8 | the menu starts closed |
| Navbar.Menu.ToggleMenu | ai-nav/app/components/Navbar.tsx:91 | the button flips the menu |
| Navbar.Menu.MobileLinkClicked | ai-nav/app/components/Navbar.tsx:114-151 | every mobile link closes the menu |
| ResourceCard.FormattedOptionalLink | ai-nav/app/components/ResourceCard.tsx:47-48 | `''` iff the link is absent or empty, otherwise the formatted link |
| ResourceCard.FormattedOptionalLinkIdempotent | ai-nav/app/components/ResourceCard.tsx:47-48 | formatting the formatted link again changes nothing |
| ResourceCard.CardHeight | ai-nav/app/components/ResourceCard.tsx:51-69 | no fixed height iff something is expanded; otherwise 320px for dataset and default cards, 280px for tutorial and framework cards, 330px for model cards |
| ResourceCard.TypeLabel | ai-nav/app/components/ResourceCard.tsx:73-76 | the label of the first type entry equal to the kind; none iff no entry matches |
| ResourceCard.ActionText | ai-nav/app/components/ResourceCard.tsx:72-85 | the type label wins; then `Access Dataset` for the five dataset categories; then `Visit Framework` on framework cards; else `View Link` |
| ResourceCard.TypeWins | ai-nav/app/components/ResourceCard.tsx:73-76 | course, video, article and book get their own labels whatever the category or variant |
| ResourceCard.TutorialToggleThresholdLower | ai-nav/app/components/ResourceCard.tsx:141 | a tutorial card shows the description toggle whenever another card would; other cards need more than 150 characters |
| ResourceCard.ShowsTitleToggle | ai-nav/app/components/ResourceCard.tsx:119 | the title toggle is shown iff the title is longer than 50 characters |
| Listing.ShowsDescriptionToggle | ai-nav/app/models/page.tsx:150 | the expand button is shown iff the description is longer than 100 characters (likewise ai-nav/app/frameworks/page.tsx:147 and ai-nav/app/resources/page.tsx:208) |
| ResourceCard.ShowsDescriptionToggle | ai-nav/app/components/ResourceCard.tsx:141 | the description toggle is shown iff the description is longer than 150 characters, or than 120 on a tutorial card |
| ResourceCard.ShownTags | ai-nav/app/components/ResourceCard.tsx:177-254 | a prefix of the tags: two on tutorial cards, three on framework and dataset cards, all otherwise |
| ResourceCard.PriceBadge | ai-nav/app/components/ResourceCard.tsx:129-133 | a badge iff `isFree` is defined, reading `Free` iff true and `Paid` iff false |
| ResourceCard.Card.constructor | ai-nav/app/components/ResourceCard.tsx:42-43 | both expand flags start false |
| ResourceCard.Card.ToggleTitle | ai-nav/app/components/ResourceCard.tsx:121 | flips the title flag only |
| ResourceCard.Card.ToggleDescription | ai-nav/app/components/ResourceCard.tsx:143 | flips the description flag only |

## Left out

**Run-time environment.**

- Network I/O, puppeteer and `child_process.exec` are parameters, as are
  clocks, `setTimeout` delays and `Math.random`. Their outcomes are supplied
  per call.
- nodemailer is not a parameter. `Scheduler.Sent` records an attempted send;
  the source catches a failing `createTransport` or `sendMail` and only logs it
  (scheduledLinkCheck.js:61-63), so the run goes on the same either way.
- Concurrency within a batch is not modelled. `Promise.all` is modelled by its
  result order and its rejection rule.
- Both `checkAllLinks` models ask for a batch size of at least 1 when the list
  is non-empty: with a smaller one the source loop (linkChecker.js:808,
  linkChecker.ts:147) never ends. The shipped configuration uses 5.
- Console output, `log` and the message timestamps are not modelled.
- The `linkChecker.js` log is a list of typed events. Message wording and
  timestamps are left out.
- Response headers, `responseTime`, proxy configuration and the
  `createRequestConfig` options have no bearing on any verdict, so they are not
  modelled.
- The `finally` close of the browser is folded into the probe outcome as a
  possible close error.

**Arithmetic and text handling.**

- Floating point: the percentages, the browser success rate and the average
  response times of the reports. `Math.round` is not modelled.
- Regular expressions:
  - the special-site patterns are the `PatternTest` parameter;
  - the object patterns of `extractItemsFromFile` are given as already matched
    objects;
  - `extractArrayData` is modelled only as its bracket scanner.
- `removeCommentsAndTypeAnnotations` is not modelled.
- Sorting and case:
  - `localeCompare` is ordinal lexicographic order;
  - `toLowerCase` folds ASCII letters only;
  - `Array.sort` is modelled by its first element.
- JavaScript prototype keys (`obj['constructor']`) in fixture and table lookups
  are not modelled.

**Report contents.**

- The human-readable Markdown reports (both `generateHumanReadableReport`
  functions) and the report file names built from the current time are not
  modelled.
- The `topErrors` list of `generateReport` (linkChecker.js:1053-1069) is only
  printed and not stored, so it is not modelled.
- The `main` functions of the checker and the suggesters are not modelled as
  such.
  - The checker's `main` is covered by `SelectForTest`, `CheckAllLinks` and
    `GenerateReport`.
  - The suggesters' `main` functions only call `findAlternativeLinks`.

**UI.**

- ReactFlow rendering, styles, the IntersectionObserver and the loading spinner
  are not modelled.
- `getContentPadding` and the title margin of ResourceCard.tsx are class
  strings with no behaviour, so they are not modelled.
- LearningPathGraph.FlowBuilder.CreateNodesAndEdges reads the selection the
  effect captured when `data` last changed. Clicking a node does not rebuild
  the flow, and the model does not show the stale `animated` flags that result.

**Weaker or narrower contracts.**

- LinkChecker.BrowserLog: states the site line, the start line, the progress
  lines, the error line of a probe that threw and the last line. It does not
  list every content-check line, and the proxy line of linkChecker.js:360 is
  not logged because the proxy is not part of this model.
- ResourceCard.ShowsTitleToggle: counts Unicode scalar values, not the UTF-16
  code units of JavaScript's `title.length`. A title with characters outside
  the Basic Multilingual Plane can show the toggle in the source and none in
  the model.
- ResourceCard.ShowsDescriptionToggle: the same for `description.length`.
- Listing.ShowsDescriptionToggle: the same for `description.length`.
- LinkCheckerTs.CheckLinkSpec: the results of `checkLink` are described per
  outcome class, not every message string.
- LinkPipeline.SelectForTest: the shuffle's randomness is a parameter. The
  contract says nothing about the distribution of the sample.

## Findings

| source | as written | input that shows it | evidently intended | confidence | as-written member | corrected member |
|---|---|---|---|---|---|---|
| ai-nav/scripts/linkChecker.js:334 | the site label is looked up among the matched entry's own property names (`domainPattern`, `detectionMethod`, …), none of which is a key of `specialSites` | any URL matching the YouTube pattern with the browser layer enabled: the log line reads `检测到特殊站点: undefined` | the key of `specialSites` holding the entry, as `checkLink` computes at lines 543-547 (`youtube`) | not executed | LinkChecker.BrowserSiteLabelAsWrittenIsUndefined | LinkChecker.SiteKeyIsName |
