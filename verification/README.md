# CriKey, verified

Dafny models of the parts of CriKey where the bookkeeping is hardest: the bounded ranked
search and its incremental cache, the two durable records, the page session, the
supervisor threads, the icon resolver, the query pipeline and the worker's log capture.
`dafny verify dfyconfig.toml` checks everything.

The project has one file per component.

| file | what it models |
|---|---|
| `Text.dfy`, `Integers.dfy`, `Sorting.dfy` | strings of scalar values, UTF-8 sizes, tokens; machine integers; stable sorting |
| `Matching.dfy` | how a query reads an item: the word-prefix grid and its replay, the token readings, the cheap filter |
| `Ranking.dfy` | the score and the non-prefix upper bound, over `real` |
| `Selection.dfy` | `select_best`: prefix scan, pruning, two nested bounded heaps, remembered positions |
| `Pruning.dfy` | exactly when that pruning changes the answer |
| `Publishing.dfy`, `SearchService.dfy` | the service around it: publishing in batches, catalog, policy, aliases, candidate cache, merging |
| `JsonText.dfy`, `JsonCursor.dfy` | the JSON subset as text and as the mutable cursor |
| `StartupJournal.dfy`, `SelectionHistory.dfy` | the two files on disk, the size budget, the crash-loop count |
| `PageSession.dfy` | the page driver and its mailbox |
| `SupervisorDriver.dfy`, `ActionEndpoint.dfy`, `CatalogDispatcher.dfy` | the three protocols of the modern and native drivers, as interleaved atomic steps |
| `IconResolver.dfy` | the single-flight icon cache, as interleaved lock holds |
| `QueryPipeline.dfy` | admission guards, cancellations and refusal watermarks |
| `LogCapture.dfy` | chunked, byte-bounded log lines |

## Where the code does not meet what it promises

* **Pruning.** `non_prefix_upper_bound` (crates/crikey-ranking/src/lib.rs:660-673) is said to
  bound every score outside the prefix index. It does not bound a whole-label match, which
  trims white space, when the label opens with white space; `NonPrefixBoundIff` gives the exact
  condition on the bound. What the selection does about it is stated without any condition:
  `SelectBest` returns the brute-force selection less the positions it drops, which are a
  function of its inputs. `SelectionRightIff` says that this is the brute-force answer exactly
  when no dropped match is in that answer, and `RightInEveryOrderIff` says when an owner's quota
  is right whatever order the posting lists offer: exactly when no match is `Endangered`, a
  condition on the catalog, the query and the history alone. `UnspacedIsSafe` is a condition on
  labels or on the query's opening that rules it out. On a family of
  inputs, one for every token (`SpacedIsInverted`), the selection answers with the second-best
  item (`PruningDropsExactMatch`).
* **Narrowing.** The cache comment (crates/crikey-app/src/lib.rs:983-989) says matching is
  prefix-closed. It is not when the earlier query is blank but not empty: such a query matches
  nothing, its cache is empty, and a longer query that extends it is answered from that cache.
  `NarrowingSoundIff` gives the exact condition, and `BlankQueryHidesMatches` submits the two
  queries one after the other and loses a match. `QueryMeans` says of every query, over every
  cache the service can hold, exactly when its selection is the brute-force answer.
* **Refresh.** A refresh frame presents the state its context was driven for whenever every job
  is still the newest when `submit` queues it, whatever the threads and generations
  (`RefreshIsTruthful`); calls that do not overlap suffice (`OneAtATimeIsTruthful`). From a driver
  at rest the refresh after a queued job is truthful if and only if that job was still the newest
  (`LateJobMisleadsIff`), and two submitters are enough to be late (`TwoSubmittersMislead`).

## Model

| member | source | states |
|---|---|---|
| `Matching.GridIffCovers` | crates/crikey-query/src/lib.rs:939-1003 | A grid cell holds a value exactly when the rest of the token can be cut into chunks that are prefixes of distinct later words, an independent definition without values. |
| `Matching.CoverPrefix` | crates/crikey-query/src/lib.rs:939-1003 | Shortening a token keeps it decomposable. |
| `Matching.ChosenCompletes` | crates/crikey-query/src/lib.rs:939-1003 | Replaying the grid's choices always covers the token when the grid says it can be covered. |
| `Matching.ReplayShape` | crates/crikey-query/src/lib.rs:939-1003 | Where the first replayed chunk lies, that one chunk ends the token, and that two or more open at a later word. |
| `Matching.DecomposedIsRead` | crates/crikey-query/src/lib.rs:896-1003 | A decomposable token is read as a word prefix or stands at the head of one word, so the cheap pre-check loses nothing. |
| `Matching.FieldInKeywordText` | crates/crikey-query/src/lib.rs:415-468 | A token found in a description or search term is found in the joined keyword text. |
| `Matching.MatchTokenIff` | crates/crikey-query/src/lib.rs:1349-1416 | A token matches exactly when one of four order-free readings applies. |
| `Matching.MatchTokenPrefixClosed` | crates/crikey-query/src/lib.rs:1349-1416 | Extending a token can lose a match, never gain one. |
| `Matching.MatchedIffEveryToken` | crates/crikey-query/src/lib.rs:1176-1245 | A query matches exactly when it has a token and every token matches; the whole-label and whole-query shortcuts change nothing. |
| `Matching.MatchPrefixClosed` | crates/crikey-app/src/lib.rs:981-996 | Matching is prefix-closed for every query with a token. |
| `Matching.NarrowingSoundIff` | crates/crikey-app/src/lib.rs:981-996 | Narrowing from one query to an extension keeps every match of every item if and only if the earlier query has a token or the later has none. |
| `Matching.CoverIsSubsequence` | crates/crikey-query/src/lib.rs:877-1003 | Chunks taken left to right spell a subsequence of the label. |
| `Matching.MatchImpliesMayMatch` | crates/crikey-query/src/lib.rs:601-665 | The warm filter never discards an item the matcher accepts. |
| `Ranking.NonPrefixBound` | crates/crikey-ranking/src/lib.rs:660-673 | The pruning bound bounds every off-index score except a whole-label match. |
| `Ranking.NonPrefixBoundIff` | crates/crikey-ranking/src/lib.rs:660-673 | The bound holds under every history if and only if the query does not reproduce the whole label. |
| `Ranking.SpacedExactOnly` | crates/crikey-query/src/lib.rs:1335-1346 | A whole-label match outside the prefix index needs a label that opens with white space. |
| `Selection.AboveTotal` | crates/crikey-app/src/lib.rs:641-663 | The candidate order is total and irreflexive. |
| `Selection.BestIsBest` | crates/crikey-app/src/lib.rs:1913-2026 | The reference top-k satisfies its characterization: sorted, of the right size, everything left out is below everything kept. |
| `Selection.BestUnique` | crates/crikey-app/src/lib.rs:1913-2026 | That characterization determines the answer. |
| `Selection.RetainBestKeepsBest` | crates/crikey-app/src/lib.rs:2029-2043 | Offering one more candidate to a heap holding the top-k of a set makes it the top-k of the larger set. |
| `Selection.PrunedStaysOut` | crates/crikey-app/src/lib.rs:1976-1998 | An off-index item whose bound is below the weakest kept cannot enter the top-k, unless it is a whole-label match. |
| `Selection.SkippedStayOut` | crates/crikey-app/src/lib.rs:1966-1975 | Skipping every remaining off-index item of an owner at once does not change its top-k, but for whole-label matches. |
| `Selection.UnspacedIsSafe` | crates/crikey-app/src/lib.rs:1913-2026 | Nothing is exposed to the bound when labels do not open with white space, or when the query has no prefix token, so that nothing is pruned. |
| `Selection.PluginSelection.Consider` | crates/crikey-app/src/lib.rs:717-744 | Scoring one position keeps the heap the best of what was seen and not dropped, and remembers exactly the matching position. |
| `Selection.PluginSelection.RecordPruned` | crates/crikey-app/src/lib.rs:759-769 | A pruned position leaves the heap alone and is remembered exactly when it may match. |
| `Selection.PluginSelection.ScanPrefixes` | crates/crikey-app/src/lib.rs:1955-1965 | The prefix scan sees exactly the positions on the prefix index. |
| `Selection.PluginSelection.VisitRemaining` | crates/crikey-app/src/lib.rs:1976-1998 | Considering or pruning one position keeps the heap and positions right, and adds to the dropped ones exactly an exposed position it prunes. |
| `Selection.PluginSelection.VisitSource` | crates/crikey-app/src/lib.rs:1976-2012 | The second visit sees exactly the off-index positions of its source, filtered when warm. |
| `Selection.VisitsCover` | crates/crikey-app/src/lib.rs:1913-2026 | The two visits together see every visible match. |
| `Selection.SelectOwner` | crates/crikey-app/src/lib.rs:1913-2026 | Whatever the labels, one owner's pass returns the top `perPlugin` of its visible matches less the dropped positions, a function of its inputs, and remembers every visible match when complete. |
| `Selection.SelectBest` | crates/crikey-app/src/lib.rs:1913-2026 | Whatever the labels, the selection equals scoring everything visible and not dropped, cutting each owner to its quota and the union to the query's; remembered positions are right and, when complete, cover every match; a query without a prefix token is complete and lists every owner. |
| `Selection.Compete` | crates/crikey-app/src/lib.rs:2013-2026 | One owner's survivors join the query-wide heap and leave the top of the union. |
| `Selection.QuotasRespected` | crates/crikey-app/src/lib.rs:1410-1487 | The selection respects both the per-owner and the per-query count, whatever the cache and the drops. |
| `Pruning.LossMattersIff` | crates/crikey-app/src/lib.rs:1913-2026 | Losing candidates changes the `k` best if and only if one of them was among those. |
| `Pruning.QuotaRightIff` | crates/crikey-app/src/lib.rs:1966-1998 | One owner's pass is the brute-force quota if and only if nothing it dropped belongs in that quota. |
| `Pruning.SafeQuotaIsRight` | crates/crikey-app/src/lib.rs:1966-1998 | When no match is endangered, a condition without visiting order, every pass is right: cold in any order, or over any cache. |
| `Pruning.RightInEveryOrderIff` | crates/crikey-app/src/lib.rs:1966-1998 | A cold pass is right in every visiting order if and only if no match is endangered. |
| `Pruning.BoundSafeIsSafe` | crates/crikey-app/src/lib.rs:1966-1998 | A slice with nothing exposed has nothing endangered. |
| `Pruning.SelectionRightIff` | crates/crikey-app/src/lib.rs:1913-2026 | The whole selection is the one without drops if and only if no dropped match is in that one, across quotas of all owners. |
| `Pruning.AnswerRightIff` | crates/crikey-app/src/lib.rs:1913-2026 | Over any cache and in any order, the selection is the brute-force answer if and only if no match left out, hidden by the cache or dropped, is in it. |
| `Pruning.DropsOfSound` | crates/crikey-app/src/lib.rs:1966-2012 | What a selection drops are visible matches, all of them whole-label matches outside the prefix index. |
| `Pruning.SafeIsRight` | crates/crikey-app/src/lib.rs:1913-2026 | With no match endangered and none hidden, the selection is the brute-force answer. |
| `Pruning.SpacedIsInverted` | crates/crikey-app/src/lib.rs:1966-1998 | For every token of two alphanumerics or more there are two items, the better one a spaced whole-label match, on which pruning goes wrong. |
| `Pruning.PruningDropsExactMatch` | crates/crikey-app/src/lib.rs:1913-2026 | On any such items the selection returns the prefix match, and brute force the exact match that ranks above it. |
| `SearchServices.JoinedTokens` | crates/crikey-query/src/lib.rs:255-277 | Joining expanded tokens with single spaces and splitting again gives the same tokens. |
| `SearchServices.WarmSeesEveryMatch` | crates/crikey-app/src/lib.rs:1418-1444 | A covering cache of a query with a token hides no match of an extension. |
| `SearchServices.SelectionMeans` | crates/crikey-app/src/lib.rs:1913-2026 | A selection is the brute-force answer if and only if no match it missed belongs to it; always, when nothing is hidden or endangered; sorted and bounded in every case. |
| `SearchServices.FreshCacheCovers` | crates/crikey-app/src/lib.rs:1418-1444 | A complete pass that sees every match leaves a cache that remembers every match of its query. |
| `SearchServices.BlankCacheIsEmpty` | crates/crikey-app/src/lib.rs:1418-1444 | A blank query leaves an empty cache. |
| `SearchServices.DescribedMatches` | crates/crikey-query/src/lib.rs:1176-1245 | Every text with a token matches an item described by it, which is off the prefix index. |
| `SearchServices.BlankQueryHidesMatches` | crates/crikey-app/src/lib.rs:1397-1487 | Submitting any blank query and then any extension of it selects nothing where brute force shows a match off the prefix index. |
| `SearchServices.PublishedSorted` | crates/crikey-app/src/lib.rs:1446-1487 | The published answer is the selection, in order, less what the aggregator refused. |
| `Publishing.PublishSelected` | crates/crikey-app/src/lib.rs:2047-2074 | Batches concatenate to the selected items, each within the limit, partial except at the end; an empty final batch follows exactly when the closing one was refused. |
| `SearchServices.RowIsSent` | crates/crikey-app/src/lib.rs:1446-1467 | Every selected row is put to the aggregator in a batch of its own owner. |
| `SearchServices.RankedAnswer` | crates/crikey-app/src/lib.rs:1542-1580 | Sorting and truncating the merged rows leaves the strongest rows, sorted, within the limit, with ephemeral ids unique. |
| `SearchServices.SearchService.SetMatchPolicy` | crates/crikey-app/src/lib.rs:970-979 | A different policy drops the candidate cache. |
| `SearchServices.SearchService.SetAliases` | crates/crikey-app/src/lib.rs:990-996 | A different alias table drops the candidate cache. |
| `SearchServices.SearchService.SetCatalogPersistence` | crates/crikey-app/src/lib.rs:1018-1034 | Refusing persistence withdraws a slice exactly when it came from the cache. |
| `SearchServices.SearchService.ReplaceCatalog` | crates/crikey-app/src/lib.rs:1289-1357 | A stale publication changes nothing, a refused one retires its instance, an accepted one replaces the slice and clears the answer; the cache is always dropped. |
| `SearchServices.SearchService.InstallSlice` | crates/crikey-app/src/lib.rs:1323-1338 | Owners stay sorted and exactly those with a slice, with a sound non-prefix bound each. |
| `SearchServices.SearchService.LoadPersistedCatalog` | crates/crikey-app/src/lib.rs:1253-1281 | A load is the fold of its slices; a miss costs only its owner and is counted. |
| `SearchServices.SearchService.SelectFor` | crates/crikey-app/src/lib.rs:1410-1444 | The selection is the function of catalog, cache and visiting order that `SelectionMeans` speaks of; the cache it leaves is well formed and, unless it narrows a blank query's, covers every match. |
| `SearchServices.SearchService.QueryMeans` | crates/crikey-app/src/lib.rs:1397-1444 | Over every reachable state, what a query selects is the brute-force answer if and only if no match it misses belongs to it; always, whatever was typed before, unless a match is endangered or a blank query's cache is narrowed. |
| `SearchServices.SearchService.SubmitQuery` | crates/crikey-app/src/lib.rs:1397-1487 | The selection is exactly that function, every row is published in its owner's stream, the answer shown is the selection less the refused batches, and the retained cache stays right. |
| `SearchServices.SearchService.MergeQueryItems` | crates/crikey-app/src/lib.rs:1542-1580 | A merge for the current generation shows exactly the sorted and truncated kept and admitted rows, flags included, which are the strongest; any other changes nothing. |
| `JsonText.NumberRoundTrip` | crates/crikey-app/src/startup_recovery.rs:425-453 | Every 32-bit and 64-bit count reads back whatever follows, and is never read as null. |
| `JsonText.StringRoundTrip` | crates/crikey-app/src/startup_recovery.rs:336-352 | Every string of scalar values reads back whatever follows. |
| `JsonText.ArrayRoundTrip` | crates/crikey-app/src/startup_recovery.rs:498-512 | Arrays of any length read back when their items do. |
| `JsonText.StringTakes` | crates/crikey-app/src/startup_recovery.rs:455-496 | What a string read takes is balanced: brackets inside it never count. |
| `JsonText.DocumentsPrefixFree` | crates/crikey-app/src/startup_recovery.rs:355-378 | Of two bracketed documents, one extends the other only by white space. |
| `JsonCursor.WriteJsonString` | crates/crikey-app/src/startup_recovery.rs:336-352 | The writing loop appends exactly the quoted string. |
| `JsonCursor.Cursor.NumberU64` | crates/crikey-app/src/startup_recovery.rs:442-453 | A 64-bit count is read, or refused when it is missing or too large. |
| `JsonCursor.Cursor.Number` | crates/crikey-app/src/startup_recovery.rs:436-438 | A 32-bit count is read, or refused. |
| `JsonCursor.Cursor.String` | crates/crikey-app/src/startup_recovery.rs:455-496 | The escape-decoding loop reads what the string reader reads. |
| `JsonCursor.Cursor.StringArray` | crates/crikey-app/src/startup_recovery.rs:498-512 | The array loop reads what the array reader reads. |
| `StartupJournals.RoundTrip` | crates/crikey-app/src/startup_recovery.rs:206-218 | Every journal reads back exactly. |
| `StartupJournals.JournalText` | crates/crikey-app/src/startup_recovery.rs:206-218 | The keys on disk are the source's literal text, nothing in them escaped. |
| `StartupJournals.ParsePrefixFree` | crates/crikey-app/src/startup_recovery.rs:355-378 | Of two texts that parse, one extends the other only by white space. |
| `StartupJournals.TornWriteDetected` | crates/crikey-app/src/startup_recovery.rs:355-378 | A journal cut short anywhere never parses. |
| `StartupJournals.TornJournalIsFresh` | crates/crikey-app/src/startup_recovery.rs:96-105 | A torn journal loads as a first launch. |
| `StartupJournals.LoadAfterSave` | crates/crikey-app/src/startup_recovery.rs:183-204 | What the next process loads is what the last one saved, within 64 KiB. |
| `StartupJournals.ParseRecord` | crates/crikey-app/src/startup_recovery.rs:355-378 | The cursor-driven parser accepts exactly the texts of the specification, with the same record. |
| `StartupJournals.SerializeRecord` | crates/crikey-app/src/startup_recovery.rs:206-218 | The writing loop spells the specified text. |
| `StartupJournals.StartupJournal.BeginStartup` | crates/crikey-app/src/startup_recovery.rs:113-132 | The first call counts a failure and fixes the verdict; later ones only record plugins. |
| `StartupJournals.OneProcess` | crates/crikey-app/src/startup_recovery.rs:113-159 | After any events of one process, the count and verdict follow from whether it got ready and whether a startup is underway. |
| `StartupJournals.CrashLoopCounted` | crates/crikey-app/src/startup_recovery.rs:96-204 | After any history of launches whose saves fit, the count on disk is the number of launches in a row that began and never committed ready, saturating. |
| `StartupJournals.NextVerdict` | crates/crikey-app/src/startup_recovery.rs:96-159 | The next launch is in safe mode exactly when that row is at least three long, and repeated starts change neither verdict nor count. |
| `Sorting.SortKeeps` | crates/crikey-app/src/selection_history_store.rs:164-178 | Sorting loses and adds nothing. |
| `Sorting.SortOrders` | crates/crikey-app/src/selection_history_store.rs:164-178 | Sorting puts the records in order. |
| `Sorting.SortRestores` | crates/crikey-app/src/selection_history_store.rs:203-207 | Sorting any rearrangement of a strictly ordered list gives it back. |
| `SelectionHistories.RowRoundTrip` | crates/crikey-app/src/selection_history_store.rs:334-420 | Every record reads back, whatever follows it. |
| `SelectionHistories.RoundTrip` | crates/crikey-app/src/selection_history_store.rs:219-311 | Every snapshot, of any length, reads back exactly. |
| `SelectionHistories.HistoryText` | crates/crikey-app/src/selection_history_store.rs:219-269 | Every key on disk, in the file and in each record, is the source's literal text, nothing in it escaped. |
| `SelectionHistories.ParsePrefixFree` | crates/crikey-app/src/selection_history_store.rs:272-311 | Of two texts that parse, one extends the other only by white space. |
| `SelectionHistories.TornWriteDetected` | crates/crikey-app/src/selection_history_store.rs:219-373 | A history cut short anywhere, inside a number, escape or string included, never parses. |
| `SelectionHistories.KeptIsLongest` | crates/crikey-app/src/selection_history_store.rs:179-201 | A trimming loop keeps the longest run that fits. |
| `SelectionHistories.CostIsExact` | crates/crikey-app/src/selection_history_store.rs:179-201 | The counted cost, commas included, is the exact UTF-8 size of the written list. |
| `SelectionHistories.KeptMostUsed` | crates/crikey-app/src/selection_history_store.rs:158-212 | What is kept is a prefix of the most-used order of the same records, put back in key order, and one more would not fit. |
| `SelectionHistories.TrimmedSize` | crates/crikey-app/src/selection_history_store.rs:158-217 | The running count equals the byte length of the trimmed file. |
| `SelectionHistories.UsedWithinBudget` | crates/crikey-app/src/selection_history_store.rs:158-212 | It never exceeds a budget that the empty file fits. |
| `SelectionHistories.FittingIsUnchanged` | crates/crikey-app/src/selection_history_store.rs:158-212 | A strictly key-ordered snapshot that fits is unchanged. |
| `SelectionHistories.LoadAfterSave` | crates/crikey-app/src/selection_history_store.rs:89-133 | A load after a save yields the trimmed snapshot, never a silently empty one. |
| `SelectionHistories.KeepMostUsed` | crates/crikey-app/src/selection_history_store.rs:164-201 | The loop keeps what the specification keeps and counts its exact size; the count overflows exactly under the largest budget when the records exceed it. |
| `SelectionHistories.TrimToBudget` | crates/crikey-app/src/selection_history_store.rs:158-212 | Trimming returns the specified snapshot, and its count is the file's exact size and within the budget; the count overflows if and only if the budget is the largest there is and the whole file exceeds it. |
| `SelectionHistories.SerializeSnapshot` | crates/crikey-app/src/selection_history_store.rs:219-239 | The writing loops spell the specified text. |
| `SelectionHistories.ParseRow` | crates/crikey-app/src/selection_history_store.rs:334-420 | The record loop accepts every field once, in any order, and nothing else. |
| `SelectionHistories.ParseRows` | crates/crikey-app/src/selection_history_store.rs:318-389 | The array loop reads what the array reader reads. |
| `SelectionHistories.ParseSnapshot` | crates/crikey-app/src/selection_history_store.rs:272-311 | The cursor-driven parser accepts exactly the texts of the specification, with the same snapshot. |
| `PageSessions.RedrawDelay` | crates/crikey-app/src/plugin_page.rs:347-349 | Zero schedules nothing; anything else is raised to the 16 ms floor. |
| `PageSessions.ThinnedReplace` | crates/crikey-app/src/plugin_page.rs:475-514 | A motion may take the place of the motion kept last. |
| `PageSessions.ThinnedKeepsDiscrete` | crates/crikey-app/src/plugin_page.rs:475-514 | Thinning leaves every event but motions, in order. |
| `PageSessions.EndsOnce` | crates/crikey-app/src/plugin_page.rs:352-440 | A run that ends publishes exactly one closed update, last, with no request after it. |
| `PageSessions.NotifiesOnce` | crates/crikey-app/src/plugin_page.rs:544-579 | At most one closing notification, only before the published end, so none after failure or self-close. |
| `PageSessions.RequestsNumbered` | crates/crikey-app/src/plugin_page.rs:388-396 | The n-th request carries generation n, saturating. |
| `PageSessions.ShownGenerationsRise` | crates/crikey-app/src/plugin_page.rs:388-440 | When answers echo issued generations, shown non-zero ones rise strictly. |
| `PageSessions.NothingStaleShown` | crates/crikey-app/src/plugin_page.rs:400-427 | A shown answer is the very frame its request was answered with, no older than the request and within the hard deadline. |
| `PageSessions.ShownExactlyWhenFit` | crates/crikey-app/src/plugin_page.rs:400-440 | What follows a reply: showing it exactly when it is in time and not stale, and the page's end when the plugin failed, was late, or the host had closed. |
| `PageSessions.HostCloseDeliversAll` | crates/crikey-app/src/plugin_page.rs:352-556 | A page the host closed delivered `Opened`, every input sent before the close, and the closing event, losing at most motions that a motion followed. |
| `PageSessions.NothingWithheld` | crates/crikey-app/src/plugin_page.rs:352-556 | An open page with an empty queue and nothing pending has delivered every input sent so far. |
| `PageSessions.PageDriver.CloseSession` | crates/crikey-app/src/plugin_page.rs:282-289 | Closing reports the frame last published in the run as the end, and settles what the plugin will be given: nothing sent later changes it. |
| `PageSessions.PageDriver.Take` | crates/crikey-app/src/plugin_page.rs:475-514 | One input coalesces, queues or overruns at 256; delivered and pending stay a thinning of the inputs. |
| `PageSessions.PageDriver.Apply` | crates/crikey-app/src/plugin_page.rs:475-514 | Each received command has its effect and no other: an input is applied or refused, and what was received stays what was applied. |
| `PageSessions.PageDriver.Drain` | crates/crikey-app/src/plugin_page.rs:443-462 | Unless it ends the page, draining takes everything sent before it, applies each input, and leaves a request due if it took anything. |
| `PageSessions.PageDriver.Handle` | crates/crikey-app/src/plugin_page.rs:364-387 | The command that woke the driver is applied, closes the page, or fails it; it is never lost. |
| `PageSessions.PageDriver.NotifyClosed` | crates/crikey-app/src/plugin_page.rs:544-556 | The notification carries everything pending and the closing event. |
| `PageSessions.PageDriver.Fail` | crates/crikey-app/src/plugin_page.rs:564-567 | A failure publishes the last frame as the end, with its reason and no notification. |
| `PageSessions.PageDriver.AskForFrame` | crates/crikey-app/src/plugin_page.rs:388-399 | A request has the next generation, the current viewport and everything pending; the page never paces itself below the floor. |
| `PageSessions.PageDriver.Accept` | crates/crikey-app/src/plugin_page.rs:421-440 | A frame that is not stale is shown and reschedules the page; a closing one ends it. |
| `PageSessions.PageDriver.DrawFrame` | crates/crikey-app/src/plugin_page.rs:388-440 | Asking, failing on error or deadline, discarding stale answers and accepting keep every invariant. |
| `PageSessions.PageDriver.Round` | crates/crikey-app/src/plugin_page.rs:352-440 | A round that is due asks, its request carries everything sent before the round began, and it sleeps only when nothing was due. |
| `PageSessions.PageDriver.Run` | crates/crikey-app/src/plugin_page.rs:352-440 | After any number of rounds of any run, everything received was applied in order and is delivered or pending, requests are one for each round that drew and the closing one, and the mailbox is current. |
| `SupervisorDrivers.StepSafe` | crates/crikey-app/src/native_provider.rs:2343-2436 | No step lowers `current`; a published frame equals `current` at its gate with nothing queued and no stop. |
| `SupervisorDrivers.RunMonotone` | crates/crikey-app/src/native_provider.rs:2475-2522 | Over every interleaving `current` and published generations never fall, and a stop ends publishing. |
| `SupervisorDrivers.RefreshIsTruthful` | crates/crikey-app/src/native_provider.rs:2343-2436 | If every job is still the newest when it is queued, every frame, refreshes included, presents the state driven for its own job, for any threads and generations. |
| `SupervisorDrivers.OneAtATimeIsTruthful` | crates/crikey-app/src/native_provider.rs:2475-2522 | Calls that do not overlap suffice for that. |
| `SupervisorDrivers.LateJobMisleadsIff` | crates/crikey-app/src/native_provider.rs:2343-2436 | After any run that comes to rest, the refresh after one more queued job is truthful if and only if that job was still the newest. |
| `SupervisorDrivers.TwoSubmittersMislead` | crates/crikey-app/src/native_provider.rs:2475-2522 | For any two generations, two submitters can make a refresh show the older job's rows under the newer query. |
| `SupervisorDrivers.RunSafe` | crates/crikey-app/src/modern_provider.rs:2098-2195 | The invariant holds in every reachable state of the modern driver too, whose runs have no refresh. |
| `ActionEndpoints.PlacesBounded` | crates/crikey-app/src/modern_provider.rs:1679-1800 | `in_flight` is reserved plus queued plus executing plus uncollected (plus stranded by a shutdown), at most 32; the 64-slot mailbox cannot overflow. |
| `ActionEndpoints.CompletedExactlyOnce` | crates/crikey-app/src/modern_provider.rs:1998-2043 | Completions are a prefix of the admissions in order; until a stop all admitted actions are completed, executing or queued, and all completed when idle; ids do not repeat before wrap. |
| `ActionEndpoints.RunKeeps` | crates/crikey-app/src/native_provider.rs:1824-1945 | Both invariants hold in every reachable state of the native endpoint, which follows the same steps. |
| `CatalogDispatchers.FinishNeverBlocks` | crates/crikey-app/src/modern_provider.rs:1081-1139 | Whenever a worker wants to send its result the channel has room. |
| `CatalogDispatchers.JoinThenDrain` | crates/crikey-app/src/modern_provider.rs:217-228 | From any reachable state all workers can finish with nothing taken, so shutdown cannot deadlock. |
| `CatalogDispatchers.CompletionsRise` | crates/crikey-app/src/modern_provider.rs:185-215 | Builds reported complete have strictly increasing ids per plugin, before ids wrap. |
| `CatalogDispatchers.NewestWins` | crates/crikey-app/src/native_provider.rs:153-184 | A taken build is reported complete exactly when it succeeded and was its plugin's newest request. |
| `CatalogDispatchers.RunKeeps` | crates/crikey-app/src/native_provider.rs:1067-1133 | A live task is a running worker or a result in the channel, never both, at most 64, in every reachable state. |
| `IconResolvers.FetchesBounded` | crates/crikey-app/src/plugin_icons.rs:209-283 | On every interleaving at most 4 fetches, one per reference, 512 entries, and 3 fetches of a reference between memo clears. |
| `IconResolvers.NoneStartsMemoized` | crates/crikey-app/src/plugin_icons.rs:209-230 | No slot is taken and no fetch starts for a memoized reference, nor for one in flight. |
| `IconResolvers.GivesUpAfterThree` | crates/crikey-app/src/plugin_icons.rs:248-262 | A transient failure is memoized only when the allowance of three is spent. |
| `IconResolvers.RunKeeps` | crates/crikey-app/src/plugin_icons.rs:177-283 | The per-reference account of started, failed and memoized holds in every reachable state. |
| `QueryPipelines.ResolvedLimit` | crates/crikey-app/src/query_pipeline.rs:1201-1209 | The manifest can tighten the scheduler's limit and never raise it. |
| `QueryPipelines.OccupancyIsActive` | crates/crikey-app/src/query_pipeline.rs:575-620 | Each plugin's suggestion occupancy is the number of its active requests, within the limit resolved from its manifest and the scheduler; no budget has two owners. |
| `QueryPipelines.RecordedAtMostOnce` | crates/crikey-app/src/query_pipeline.rs:1069-1108 | Each captured cancellation is recorded at most once, and not while unresolved. |
| `QueryPipelines.QueryPipeline.Register` | crates/crikey-app/src/query_pipeline.rs:385-412 | Registration succeeds exactly for a new plugin with an unowned budget, and says which refusal applies. |
| `QueryPipelines.QueryPipeline.Unregister` | crates/crikey-app/src/query_pipeline.rs:497-537 | Active requests, unresolved and pending cancellations, parked completions, reports and the registration of the plugin go, nothing else does, and its budget is left with no slot taken. |
| `QueryPipelines.QueryPipeline.Keystroke` | crates/crikey-app/src/query_pipeline.rs:542-573 | A new generation captures exactly the drained cancellations of active requests, and retires exactly the parked completions of older generations, guards included. |
| `QueryPipelines.QueryPipeline.Tick` | crates/crikey-app/src/query_pipeline.rs:575-620 | Each dispatch is sent and active or turned away and retired, the latter only while its plugin was full; the cancellations handed over are those pending and those drained of active requests; reports catch up. |
| `QueryPipelines.QueryPipeline.Admit` | crates/crikey-app/src/query_pipeline.rs:584-603 | A dispatch is admitted exactly below the limit; a repeated one keeps one guard. |
| `QueryPipelines.QueryPipeline.Deliver` | crates/crikey-app/src/query_pipeline.rs:633-684 | A stale batch is refused and records the cancellation it answers, once. |
| `QueryPipelines.QueryPipeline.Complete` | crates/crikey-app/src/query_pipeline.rs:686-696 | A completion parks behind queued batches of the current generation, or retires its request. |
| `QueryPipelines.QueryPipeline.AbortRequest` | crates/crikey-app/src/query_pipeline.rs:703-724 | An abort retires everything a request holds, records its cancellation once, and is a no-op when repeated. |
| `QueryPipelines.QueryPipeline.FinishCompletion` | crates/crikey-app/src/query_pipeline.rs:1020-1044 | Retiring drops the guard and the active request together, and records a stale cancellation once. |
| `QueryPipelines.QueryPipeline.Flush` | crates/crikey-app/src/query_pipeline.rs:1046-1067 | Exactly the completions of other generations and those merged to the end are retired, with their guards, active requests and stale cancellations. |
| `QueryPipelines.QueryPipeline.Capture` | crates/crikey-app/src/query_pipeline.rs:1069-1078 | Exactly the drained cancellations of active requests become unresolved and pending, in order. |
| `QueryPipelines.QueryPipeline.Resolve` | crates/crikey-app/src/query_pipeline.rs:1096-1108 | An answered cancellation is recorded exactly when it was unresolved, and its plugin is then registered. |
| `QueryPipelines.QueryPipeline.Refuse` | crates/crikey-plugin-supervisor/src/concurrency.rs:191-214 | A refusal raises one counter by one, saturating, and changes no other. |
| `QueryPipelines.QueryPipeline.ReconcileRefusals` | crates/crikey-app/src/query_pipeline.rs:1173-1192 | Whatever refusals land meanwhile, the report becomes at least the counters before and at most those after, and equals the watermark. |
| `QueryPipelines.QueryPipeline.SyncHealth` | crates/crikey-app/src/query_pipeline.rs:1110-1153 | Every plugin's report becomes at least its counter as it stood before and at most as it stands after. |
| `QueryPipelines.QueryPipeline.Health` | crates/crikey-app/src/query_pipeline.rs:932-935 | A health read misses no refusal counted before it and invents none. |
| `LogCaptures.SplitIsExact` | sdk/python/_crikey_modern_worker.py:164-179 | The logical lines and the tail are the text again, and none holds a newline. |
| `LogCaptures.ClipIsLongest` | sdk/python/_crikey_modern_worker.py:225-251 | Clipping gives the longest whole-character prefix within the bytes. |
| `LogCaptures.ReportedLine` | sdk/python/_crikey_modern_worker.py:253-298 | A reported line is its logical line when that fits, else its longest fitting prefix, marked. |
| `LogCaptures.LogCapture.Extend` | sdk/python/_crikey_modern_worker.py:225-251 | The open line is always the longest prefix that fits, however it was pieced together. |
| `LogCaptures.LogCapture.Commit` | sdk/python/_crikey_modern_worker.py:253-263 | Ending a line stores it within the cap or counts it as dropped. |
| `LogCaptures.LogCapture.Write` | sdk/python/_crikey_modern_worker.py:164-179 | A write adds exactly its text to the record. |
| `LogCaptures.LogCapture.Take` | sdk/python/_crikey_modern_worker.py:279-298 | A take reports the whole text since the record began, at most 512 lines and one stating the exact number dropped, and starts afresh. |
| `LogCaptures.Captured` | sdk/python/_crikey_modern_worker.py:164-298 | The report of any sequence of writes is that of the text they make, so chunking never matters. |

## Left out

- Posting lists and their intersection: a cold visit is a parameter that must offer every match once.
- Evidence quality, highlight position and query affinity sums: parameters of the score, so the results hold for all of them.
- Floating point: scores are `real`; rounding and the ordering of equal floats are not modelled.
- Catalog limits, cache writes to disk, statistics, icons and startup gating of `SearchService`: a limit breach and an aggregator refusal are parameters.
- The catalog owners a cache advertises are given as a list, without the sort and the removal of duplicates that precede the load.
- Word boundaries and text normalization: items carry their words, and queries and labels are already normalized.
- The aggregator keeps its rows in its own order and the final sort restores rank order; the model keeps rank order throughout.
- Directory creation, staging files, renames and the kind of file read: a save that succeeds is one atomic change of the file's text.
- PageSessions.PageDriver.Run: page id and palette, which never change, and the wording of failure reasons are not modelled.
- The supervisor, action, catalog and icon protocols are state machines over atomic steps on values, not objects updated in place; condition variables, wake-ups and thread spawning are not modelled beyond the steps they allow.
- CatalogDispatchers.RunKeeps: spawning a worker and recording its task are one step, and claims about ids hold before the 64-bit counter wraps.
- ActionEndpoints.CompletedExactlyOnce: after a stop, an action sent between the drain and the drop of the receiver is stranded and gets no completion, as in the code.
- Whether every requested cancellation reaches a blocked call, and whether every open native request has a live call: the code does not promise either across all interleavings.
- Resending a merged batch: truncation can remove a row, so a merge is not idempotent and no such claim is made.
- Scheduler, intake queue and aggregator of the query pipeline: their verdicts are parameters; presentation, traces and stale or obsolete counters are not modelled.
- Suggestion slots are taken only by the pipeline; action, background and catalog occupancy of the shared budgets is not modelled, only their refusals.
- The mirror of captured text to the real stderr, text from inactive contexts, and lone surrogates.
- The legacy provider, permission lookups, snapshots, ABI glue, hosts, benchmarks and packaging: simpler variants or single branches.
