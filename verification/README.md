# gear5: scrape engine, authorisation, caches and listings

This project models the parts of gear5 whose state outlives a single request, and proves what holds of them
over every history:

- **The scrape engine** (`crates/gear5-core/src/scraper/sync.rs`): four tables, a run that walks the set
  dropdown, skips a page whose hash is stored or upserts its sets and cards, keeps running totals, and opens
  and closes telemetry rows. Every awaited call goes through an oracle (`Fate`) that lets it succeed, fail
  without effect, take effect and lose its reply, or be the point at which the whole request is dropped,
  with or without the statement being carried out; the stale-run cleanup of another starting process may get in before any call. The functions of `Engine`
  say what the code does; the class `Scraper.Session` does it in place and is proved equal to them.
- **Bearer-token authorisation** (`crates/gear5-api/src/middleware/auth.rs`, `auth_cache.rs`,
  `crates/gear5-core/src/auth/key.rs`): any number of requests interleaved, step by step, with revocations,
  other changes of the key table, cache clearings and clock ticks.
- **Search** behind its cache, as a second instance of the same read-through protocol.
- **Exact algorithms** over this state: keyset pagination, regular-expression escaping, the dump's ETag, the
  failure streak, the daily delay and the loop around it, and the stripping of labels in the parser.

## How to read it

| module | models |
|---|---|
| `Schema`, `Text`, `Parse` | rows and pages; string order; set ids from card codes |
| `Statements`, `Engine` | SQL statements with their constraints, calls, pages, runs, histories of runs |
| `Scraper` | the same engine as a class that updates tables and report in place |
| `Integrity`, `Frames`, `Events` | invariants of every reachable state; what each part leaves alone; the shape of a history |
| `Placement` | under which set a card is stored, where a set's name and label come from, and how a page ends |
| `HashSkip`, `Writes`, `HashSkipLimits`, `Rerun` | when skipping a page agrees with walking it, exactly; what a history writes; reruns |
| `Counters`, `Telemetry`, `SetSeries`, `RunTable` | conservation of the totals; telemetry sums; `source_series`; ETag and streak |
| `Lru`, `ReadThrough` | the bounded, time-limited cache; the protocol of requests around it |
| `KeyStore`, `Auth`, `Search` | the key table; authorisation and search, with their caches as classes |
| `Examples` | concrete histories that show what the general statements exclude |
| `Pagination`, `RegexEscape`, `Labels`, `Scheduler` | the exact algorithms |

SHA-256 digests are represented by what they are digests of, so they are equal exactly when the hashed values
are; an Argon2 hash by the secret. Run ids are positions in the run table. Times are integers.

## Where the plain claim is too strong

- *A skipped page could as well have been walked.* True over histories in which every visit that wrote cards
  recorded its hash, no dropdown repeats a series and no two series list the same code
  (`HashSkip.SkipRefinesWalk`); a visit none of whose calls fails records its hash
  (`HashSkip.UninterruptedVisitIsRecorded`). The exact condition, over every history from empty tables: the last
  write to each of the page's codes left the page's payload (`Writes.SkipAgreesIffLastWritesHold`). Counted from
  the walk that recorded the page: no card written since left another payload on one of its codes
  (`Writes.SkipAgreesSinceWalkIff`, `Writes.SkipAgreesAfterHistoryIff`). In both, the cards a history writes are
  those whose upserts took effect, acknowledged or not (`Writes.HistoryOverwrites`). `Examples.StaleSkipExample` is a history of three runs
  that ends in a stale skip, and `HashSkipLimits.RevisitForgetsDigest` shows why `SkipRefinesWalk` excludes a
  repeated series.
- *Revocation through the API is instant* (README.md:107 and README.md:419 of the repository). It is
  if and only if no verified look-up of the token is waiting to be inserted when the cache is cleared
  (`Auth.RevocationIsImmediateIff`). README.md:108 bounds a command-line revocation by the time to live; the
  code adds the time a request spends between look-up and insertion, because an entry is stamped after the
  verification (`Auth.CliRevocationIsBounded`). The documented bound holds if and only if no verified look-up
  of the token was waiting to be inserted when the row was revoked (`Auth.CliRevocationMeetsTtlIff`). The same
  goes for an API revocation that is dropped between its two steps. `Auth.RevokedTokenIsAccepted` is a run that
  accepts a revoked token any given time later, through the cleared cache or not.
- *Following `next_cursor` lists every card.* The row taken off the page becomes the cursor, and the next query
  asks for codes strictly above it, so each such row is never listed (`Pagination.WalkSkipsEveryCursorRow`).
  The walk is complete if and only if everything fits on one page (`Pagination.WalkIsCompleteIff`); with the
  last kept row as the cursor it is always complete (`Pagination.MendedWalkIsComplete`).
- *Skipped pages keep being counted in full.* The count look-up does not ask for a hash, and every skip copies
  the count it finds. So a skip is counted in full if and only if no `ok` row of the series without a hash is
  newer than the oldest row of the trailing block of rows with the page's hash (`Telemetry.SkipCountIff`);
  once there is one, every skip of that block counts no cards (`Examples.ShortCountExample`).
- *Inserted equals the growth of the table.* The growth is `inserted` plus the new cards whose upsert took effect
  without being acknowledged, so they are equal if and only if a run has none of those
  (`Counters.RunConserves`, `Examples.LostInsertExample`).
- *A dump answered 304 is current.* With finish times apart in milliseconds, the answer is right about every
  payload if and only if a later run closed as `success`, so that it is not a 304, or the last write to each card
  since the dump, by whatever run, left the payload dumped (`RunTable.NotModifiedIsRightIff`). When every run that
  wrote cards closed as `success`, a 304 means that no row changed at all (`RunTable.NotModifiedMeansUnchanged`).
  `Examples.PartialRunExample` is a `partial` run that changes the cards under an unchanged ETag.
- *A slot is slept for once.* It is slept for again if and only if its sleep began at least a minute before it and
  the run took less than the fraction of a second by which the sleep fell short (`Scheduler.SleepsAgainIff`,
  `Scheduler.TwoSleepsHappen`); never three times.

## Model

| member | source | states |
|---|---|---|
| Parse.SetIdIsTheDashedPrefix | crates/gear5-core/src/scraper/parse.rs:102-110 | a code's set id is its non-empty, dash-free prefix that a dash follows, and there is none otherwise |
| Parse.SecondaryIdsAreSorted | crates/gear5-core/src/scraper/sync.rs:323-332 | the ids ensured besides the primary one come in set order, each once, and are exactly the other ids the page's codes name |
| Scraper.Session.CleanRunRows | crates/gear5-core/src/scraper/sync.rs:16-33 | the cleanup of run rows in place is the statement's effect on the table |
| Scraper.Session.CleanRunSetRows | crates/gear5-core/src/scraper/sync.rs:34-51 | the cleanup of per-set rows in place is the statement's effect on the table |
| Scraper.Session.UpsertCardRow | crates/gear5-core/src/scraper/sync.rs:429-499 | one card upsert in place is the call of the model, whatever becomes of it, with the outcome it reports |
| Scraper.Session.UpsertSetRow | crates/gear5-core/src/scraper/sync.rs:508-530 | one set upsert in place is the call of the model: a placeholder series gives way, another stays, a taken one is rejected |
| Scraper.Session.EnsureSetRow | crates/gear5-core/src/scraper/sync.rs:539-551 | a missing set gets a placeholder row; a present one is left alone |
| Scraper.Session.OpenRunRow | crates/gear5-core/src/scraper/sync.rs:553-565 | opening a run appends a running row |
| Scraper.Session.CloseRunRow | crates/gear5-core/src/scraper/sync.rs:567-595 | closing a run stores status, finish time and totals in its own row only |
| Scraper.Session.OpenSetRow | crates/gear5-core/src/scraper/sync.rs:597-618 | opening a per-set row creates it, or resets the row of the same run and series |
| Scraper.Session.CloseSetRow | crates/gear5-core/src/scraper/sync.rs:621-656 | closing a per-set row stores status, counts, primary set and hash in that row, if it exists |
| Scraper.Session.UpsertCardRows | crates/gear5-core/src/scraper/sync.rs:334-367 | the card loop stops at the first failing call and counts each card it handled |
| Scraper.Session.WalkOnePage | crates/gear5-core/src/scraper/sync.rs:301-369 | an empty page, a first card without set id, and the sets-then-cards order, in place |
| Scraper.Session.SkipOnePage | crates/gear5-core/src/scraper/sync.rs:260-299 | a skip adds the last count to seen and unmodified and looks the primary set up |
| Scraper.Session.ScrapeOneSet | crates/gear5-core/src/scraper/sync.rs:224-369 | one page: the hash look-up, then skip or walk |
| Scraper.Session.ScrapeSetTracked | crates/gear5-core/src/scraper/sync.rs:167-222 | a page between the opening and closing of its telemetry row, whose failures are ignored |
| Scraper.Session.ScrapeSets | crates/gear5-core/src/scraper/sync.rs:117-133 | the loop over the dropdown, which only being dropped ends early |
| Scraper.Session.ScrapeEverything | crates/gear5-core/src/scraper/sync.rs:54-115 | a whole run in place is the run of the model; it keeps the table invariants, loses no card, set or run, and when it ends closed has added one final row with its report |
| Scraper.Session.ScrapeOneSeries | crates/gear5-core/src/scraper/sync.rs:137-165 | the run of a single series in place is that of the model, with the same guarantees |
| Scraper.Session.CleanUpStaleRuns | crates/gear5-core/src/scraper/sync.rs:16-51 | the two cleanup statements, the second only if the first succeeded |
| Integrity.SetsArePresent | crates/gear5-core/src/scraper/sync.rs:306-337 | once the primary set is upserted and the others ensured, the set each card is stored under exists, fallback to the primary included |
| Placement.CardsAreStoredUnderTheirSet | crates/gear5-core/src/scraper/sync.rs:334-337 | over every history from empty tables a card whose code begins with a set id and a dash is stored under that set, whatever page it was found on |
| Placement.VisitPlaces | crates/gear5-core/src/scraper/sync.rs:306-337 | a visit, however it ends, leaves each row as it was or holding a card of its page: under the set the code names, or for a code that names none under the set the page's first card names |
| Placement.SetsAreDescribed | crates/gear5-core/src/scraper/sync.rs:508-551 | over every history from empty tables a set is a placeholder named and labelled by its id or has the name and label of a dropdown entry some run visited, and the entry of a single run has its series for both |
| Placement.SingleRunRecordsItsSeries | crates/gear5-core/src/scraper/sync.rs:137-165 | a run of a single series adds no telemetry row but its own, under that series |
| Placement.FinishedPageIs | crates/gear5-core/src/scraper/sync.rs:299-313 | a page finishes with its own hash unless it lists no card, and when walked its first card names the set reported; a first card that names none is an error |
| Placement.RecordedRowNamesItsSet | crates/gear5-core/src/scraper/sync.rs:621-656 | the telemetry row of a finished page carries the set its first card names, walked or skipped |
| Integrity.HistoryKeeps | crates/gear5-core/src/scraper/sync.rs:224-369 | over every history of runs and cleanups with any failures: all table invariants, no card or set ever disappears, first-seen times stay |
| Integrity.ForeignKeysNeverFail | crates/gear5-core/src/scraper/sync.rs:306-337 | no statement of any history is rejected for its set, and every stored card refers to a stored set |
| Integrity.DigestsSitOnOkRows | crates/gear5-core/src/scraper/sync.rs:597-656 | in every reachable state a stored hash means status ok, running rows have none, and exactly running runs lack a finish time |
| Integrity.CleanupLeavesNothingRunning | crates/gear5-core/src/scraper/sync.rs:16-51 | after a cleanup both of whose statements succeed every run and per-set row that was running is failed and finished, a finish time it had and all else in it kept, and every other row and the catalogue is as before |
| Integrity.ScrapeTrackedCountsSet | crates/gear5-core/src/scraper/sync.rs:167-222 | a set is counted as done exactly when its page finished, whatever becomes of its telemetry |
| Writes.HistoryOverwrites | crates/gear5-core/src/scraper/sync.rs:429-499 | over every history the payloads at its end are those at its start overwritten with the cards whose upserts took effect, whatever failed, was lost or dropped |
| Writes.SkipAgreesIffLastWritesHold | crates/gear5-core/src/scraper/sync.rs:243-299 | over every history from empty tables a skip agrees with a successful walk if and only if the last write to each of the page's codes left the page's payload |
| Writes.SkipAgreesAfterHistoryIff | crates/gear5-core/src/scraper/sync.rs:243-299 | after any history from a state where the page's walk would change nothing, a skip leaves the cards, and a successful walk would leave every payload the same if and only if the writes since agree with the page on its codes |
| Writes.SkipAgreesSinceWalkIff | crates/gear5-core/src/scraper/sync.rs:243-369 | the same counted from the walk that recorded the page, over the rest of its run and any history after it |
| HashSkip.UpsertCardsOverwrite | crates/gear5-core/src/scraper/sync.rs:334-342 | a walk that succeeds leaves the payloads that overwriting code by code leaves, with matching hashes |
| HashSkip.FinishedPageIsImprinted | crates/gear5-core/src/scraper/sync.rs:243-369 | a page that finishes with a hash, walked or skipped, is one whose walk would change no payload |
| HashSkip.HistoryStaysSynced | crates/gear5-core/src/scraper/sync.rs:243-299 | over every such history each stored hash belongs to a page whose walk would change nothing |
| HashSkip.SkipRefinesWalk | crates/gear5-core/src/scraper/sync.rs:260-299 | after every such history, a skip leaves the cards alone and a successful walk instead would leave every payload the same |
| HashSkip.UninterruptedVisitIsRecorded | crates/gear5-core/src/scraper/sync.rs:167-222 | a visit none of whose calls fails records its hash if it changes any card |
| HashSkipLimits.VisitSkipIff | crates/gear5-core/src/scraper/sync.rs:167-222 | after one more visit, finished, failed or dropped half-way, the stored hash is the old or the new page's, and a skip of the old page agrees with a walk if and only if the part of the new page that was written agrees with it |
| HashSkipLimits.RevisitForgetsDigest | crates/gear5-core/src/scraper/sync.rs:597-618 | reopening a row within a run takes its hash back, and an earlier run's page is then skipped whatever was written since |
| Examples.StaleSkipExample | crates/gear5-core/src/scraper/sync.rs:243-299 | a three-run history that ends in a skip of the old page with the new page's card in the table, where a walk would succeed and restore the old card |
| Rerun.StoredCardsAreUnmodified | crates/gear5-core/src/scraper/sync.rs:465-499 | upserting cards stored as listed writes nothing and counts each as unmodified |
| Rerun.RerunIsNoOp | crates/gear5-core/src/scraper/sync.rs:224-369 | of two successive complete runs over the same pages the second changes no card row and reports nothing inserted or updated, skipped or walked |
| Counters.PassConserves | crates/gear5-core/src/scraper/sync.rs:315-342 | over a pass seen is inserted plus updated plus unmodified plus the cards not reached, of which there are none when all sets are done |
| Counters.RunConserves | crates/gear5-core/src/scraper/sync.rs:54-133 | the same for a whole run, updated is the number of rows rewritten, and the table grows by inserted plus the new cards stored without acknowledgement, so by inserted if and only if there are none; no code disappears |
| Examples.LostInsertExample | crates/gear5-core/src/scraper/sync.rs:334-342 | a run whose only card is stored while it reports none inserted |
| Counters.SingleRunConserves | crates/gear5-core/src/scraper/sync.rs:137-165 | the same conservation for the run of a single series, however it ends |
| Counters.OutcomeTellsEffect | crates/gear5-core/src/scraper/sync.rs:429-499 | an acknowledged upsert reports inserted exactly for a new code and unmodified exactly when the table is untouched; it changes no other row and keeps a first-seen time |
| Counters.RunWithoutPagesFails | crates/gear5-core/src/scraper/sync.rs:69-115 | a run whose index is not fetched or cannot be parsed closes as failed, with all counts zero and the catalogue as it was |
| Counters.StatusSaysWhatFinished | crates/gear5-core/src/scraper/sync.rs:69-76 | a run closes as success when it has pages and all finished, partial when some did, failed when none did |
| Counters.SingleStatusSaysWhatFinished | crates/gear5-core/src/scraper/sync.rs:137-165 | the run of a single series closes as success or failed, as its page finished or not |
| Telemetry.VisitRow | crates/gear5-core/src/scraper/sync.rs:177-219 | working telemetry leaves a closed row with the page's ending: ok with its set and hash or failed with neither, and what the page added to seen and unmodified |
| Telemetry.RunRowsAddUp | crates/gear5-core/src/scraper/sync.rs:177-219 | with distinct series and working telemetry the per-set rows of a run sum to its totals |
| Telemetry.SkipCountIff | crates/gear5-core/src/scraper/sync.rs:260-281 | over every history the count the next skip of a page adds is all its cards if and only if no hashless ok row of the series is newer than the oldest of the latest rows with the page's hash; else it is zero |
| Telemetry.SkipCountsCarryForward | crates/gear5-core/src/scraper/sync.rs:243-281 | after every history a skip that finishes adds that count, all cards of the page originally walked or none, to seen and unmodified and nothing else |
| Examples.ShortCountExample | crates/gear5-core/src/scraper/sync.rs:260-299 | a history after which the newest ok row carries the page's hash and yet its skip counts no card |
| SetSeries.UpsertTellsEffect | crates/gear5-core/src/scraper/sync.rs:508-530 | an acknowledged set upsert stores the dropdown's name and label, replaces only a placeholder series, keeps the creation time and touches no other set |
| SetSeries.EnsureTellsEffect | crates/gear5-core/src/scraper/sync.rs:539-551 | an acknowledged placeholder has its id for series, name and label, and a set that was there stays as it was |
| SetSeries.WalkedSetIsDescribed | crates/gear5-core/src/scraper/sync.rs:317-342 | a page walked to its end leaves its primary set with the name and label of its dropdown entry |
| SetSeries.SeriesIsWrittenOnce | crates/gear5-core/src/scraper/sync.rs:508-551 | over any sequence of statements a set's series changes at most once, from its own placeholder |
| SetSeries.SeriesNeverCollide | crates/gear5-core/src/scraper/sync.rs:508-551 | with ids and series apart and a stable one-to-one assignment, no statement of any history is rejected for a series already taken |
| SetSeries.FinishedPageNamesItsSet | crates/gear5-core/src/scraper/sync.rs:282-313 | a skipped page is recorded under the same set as a walk derives from its first card |
| SetSeries.RunPosts | crates/gear5-core/src/scraper/sync.rs:306-332 | a complete run leaves exactly the series its set of pages determines |
| SetSeries.SeriesIgnorePageOrder | crates/gear5-core/src/scraper/sync.rs:508-551 | two complete runs over the same pages in any orders leave the same series |
| RunTable.CallOpensRun | crates/gear5-core/src/scraper/sync.rs:553-565 | opening a run adds at most its own row, running and started at the time of the call, and exactly that when acknowledged; earlier rows change by cleanup only |
| RunTable.CallClosesRun | crates/gear5-core/src/scraper/sync.rs:567-595 | closing a run changes its own row alone: an acknowledged call leaves it with the reported status and totals, finished at the time of the call; otherwise it may be as reported, cleaned up or as it was |
| RunTable.RunLeaves | crates/gear5-core/src/scraper/sync.rs:54-115 | a run that ends closed has added one final row with its report; earlier rows change by cleanup only |
| RunTable.SingleRunLeaves | crates/gear5-core/src/scraper/sync.rs:137-165 | the same for the run of a single series |
| RunTable.HistoryCleansRuns | crates/gear5-core/src/scraper/sync.rs:553-595 | over every history earlier run rows are at most cleaned up |
| RunTable.EtagNamesMillisecond | crates/gear5-api/src/routes/dump.rs:104-123 | the ETag is a number exactly when the newest successful run finished in that millisecond |
| RunTable.NotModifiedFromTimes | crates/gear5-api/src/routes/dump.rs:42-57 | when no later success finished within a millisecond of the newest one before the dump, its ETag is answered 304 if and only if there is no later success |
| RunTable.NotModifiedIffNoSuccess | crates/gear5-api/src/routes/dump.rs:42-57 | with finish times apart in milliseconds, a 304 is answered if and only if no later run closed as success |
| RunTable.NotModifiedIsRightIff | crates/gear5-api/src/routes/dump.rs:42-57 | a 304 is right about every payload if and only if a later run closed as success, so that none is answered, or the last write to each card since the dump left the payload dumped |
| RunTable.NotModifiedMeansUnchanged | crates/gear5-api/src/routes/dump.rs:104-123 | corollary for whole rows, update times included: if every run that wrote cards since closed as success, a 304 means the cards table is the one dumped |
| Examples.PartialRunExample | crates/gear5-api/src/routes/dump.rs:42-57 | a partial run that changes the cards while the earlier dump's ETag is still answered 304 |
| RunTable.StreakQueryIsStreak | crates/gear5-api/src/routes/health.rs:81-98 | the ROW_NUMBER and COALESCE query is the number of leading failures among closed runs, newest first |
| RunTable.ClosingMovesStreak | crates/gear5-core/src/scraper/sync.rs:567-595 | a run closed as failed adds one to the streak, as success or partial resets it |
| RunTable.SingleClosingMovesStreak | crates/gear5-core/src/scraper/sync.rs:137-165 | so does the run of a single series |
| Lru.PutKeepsSized | crates/gear5-api/src/auth_cache.rs:80-82 | an insertion keeps the size bound and one entry a key, stores the entry, and adds nothing else |
| Lru.GetKeepsSized | crates/gear5-api/src/auth_cache.rs:64-78 | a look-up keeps the size bound, changes no entry, and hits only a stored entry that is live |
| Lru.EntrySurvives | crates/gear5-api/src/search_cache.rs:47-67 | an entry survives, and is found while live, as long as fewer distinct other keys than the capacity are used after it |
| Lru.HitEntrySurvives | crates/gear5-api/src/search_cache.rs:47-59 | an entry just hit survives likewise, with its value and its age |
| ReadThrough.RunIsSourced | crates/gear5-api/src/middleware/auth.rs:62-98 | in every interleaving the cache keeps its bound and every entry and value in flight stems from one request's own fetch, check and insertion |
| ReadThrough.AnswersAreFresh | crates/gear5-api/src/middleware/auth.rs:62-98 | every answer is what the source held when some request looked, at most the time to live plus that request's latency ago |
| ReadThrough.LateAnswersWereInFlight | crates/gear5-api/src/routes/admin.rs:156-167 | after a key is withdrawn and the cache cleared, an answer needs a fetch before the one and an insertion after the other |
| ReadThrough.GoneIsNeverAnswered | crates/gear5-api/src/middleware/auth.rs:72-95 | a withdrawn key neither cached nor in flight is never answered again |
| KeyStore.KeyTable.CreateKey | crates/gear5-core/src/auth/key.rs:68-92 | a key is stored under its prefix with the name, scopes, rate and expiry asked for, unrevoked and unused, and its token verifies, unless prefix or id is taken, when nothing changes |
| KeyStore.KeyTable.RevokeKey | crates/gear5-core/src/auth/key.rs:108-124 | exactly the rows whose prefix or id is the one given are revoked, keeping an earlier revocation time, and are never looked up again; every other row is unchanged; it reports found exactly when there is such a row |
| KeyStore.KeyTable.MarkKeyUsed | crates/gear5-core/src/auth/key.rs:164-170 | only the last-used time of that id changes: no row comes or goes, ids stay unique, and every look-up of every token finds the same key, secret, expiry and revocation as before |
| KeyStore.KeyTable.LookupActiveRowByPrefix | crates/gear5-core/src/auth/key.rs:133-152 | the row found is the unrevoked, unexpired one under the prefix of a visibly prefixed token |
| KeyStore.RowsAreNeverRevived | crates/gear5-core/src/auth/key.rs:108-124 | under any operations a row keeps identity, secret and expiry and stays revoked since the same moment |
| KeyStore.TableStaysLawful | migrations/20260516000002_api_keys.sql:1-12 | ids stay unique and every row is stored under the prefix of its own secret |
| KeyStore.KeyLifetime | crates/gear5-core/src/auth/key.rs:68-152 | a created key is found and verifies until it expires or the first revocation that gives its prefix or its id, and never after |
| Auth.AuthCache.GetEntry | crates/gear5-api/src/auth_cache.rs:64-78 | a hit is the entry of this token within its time and its key unexpired; otherwise the entry is dropped |
| Auth.AuthCache.InsertEntry | crates/gear5-api/src/auth_cache.rs:80-82 | the entry becomes the most recently used one and a full cache evicts its least recently used |
| Auth.AuthCache.InvalidateAll | crates/gear5-api/src/auth_cache.rs:89-91 | nothing stays cached |
| Auth.AuthCache.Invalidate | crates/gear5-api/src/auth_cache.rs:85-87 | this token's entry goes, the others stay |
| Auth.ResolveAuth | crates/gear5-api/src/middleware/auth.rs:62-98 | cache, look-up, verification, insertion in the code's order are the protocol's steps of one request, with its answer |
| Auth.AcceptsAreBoundedlyStale | crates/gear5-api/src/middleware/auth.rs:62-98 | every accepted token was the secret of an active row at some look-up, no longer ago than the time to live plus that request's latency, and a cached row is unexpired |
| Auth.RevokeThroughApi | crates/gear5-api/src/routes/admin.rs:156-167 | the row is revoked first and the whole cache cleared if a row has the prefix or id given; tokens of such rows are then neither active nor cached |
| Auth.RevocationLeavesOnlyInFlight | crates/gear5-api/src/routes/admin.rs:156-167 | after both, a request is accepted only through a look-up before the row update inserted after the clearing |
| Auth.RevocationIsImmediateIff | crates/gear5-api/src/routes/admin.rs:156-167 | no continuation ever accepts the token again if and only if no verified look-up of it waits to be inserted |
| Auth.CliRevocationIsBounded | crates/gear5-core/src/auth/key.rs:108-124 | without a clearing, acceptance ends within the time to live plus the longest look-up-to-insertion time |
| Auth.CliRevocationMeetsTtlIff | crates/gear5-core/src/auth/key.rs:108-124 | once the row is revoked no continuation accepts the token later than the time to live if and only if no verified look-up of it was waiting to be inserted |
| Auth.RevokedTokenIsAccepted | crates/gear5-api/src/middleware/auth.rs:72-95 | for any time to live and delay, a run that accepts a revoked token that much later, with the cache cleared in between or not |
| Search.SearchCache.GetResult | crates/gear5-api/src/search_cache.rs:47-59 | a hit is what was stored for this very query within its time; an outlived one is dropped |
| Search.SearchCache.InsertResult | crates/gear5-api/src/search_cache.rs:61-67 | the result becomes the most recently used entry, within the capacity |
| Search.NormalisedIs | crates/gear5-api/src/routes/cards.rs:272-275 | the needle is the query without the white space at its ends, lowercased; the limit is ten unless given, and at least 1 and at most 25 |
| Search.SearchCards | crates/gear5-api/src/routes/cards.rs:267-287 | normalised needle and clamped limit; too short a needle finds nothing; else cache, query, insertion as in the protocol, errors not cached |
| Search.SearchAnswersAreRecent | crates/gear5-api/src/routes/cards.rs:272-286 | every answer is what that query finds in a catalogue state no older than the time to live plus query latency, and the capacity is never exceeded |
| Search.CacheIsInvisibleWhenQuiet | crates/gear5-api/src/routes/cards.rs:272-286 | once the catalogue is unchanged for that long, the cached answer is the query's own |
| Text.BelowIsFirstDifference | crates/gear5-api/src/routes/cards.rs:172-177 | the order of codes: the first difference decides, and a proper prefix comes first |
| Pagination.ListCards | crates/gear5-api/src/routes/cards.rs:119-201 | a page has at most the limit of rows, and exactly that many when there is a next cursor, where the limit is 50 unless given, at least 1 and at most 200 |
| Pagination.WalkSkipsEveryCursorRow | crates/gear5-api/src/routes/cards.rs:172-183 | following the cursors takes floor(n/(L+1))+1 pages, ascends strictly, and emits exactly the rows whose index is not L modulo L+1 |
| Pagination.WalkIsCompleteIff | crates/gear5-api/src/routes/cards.rs:172-183 | every row is emitted if and only if all fit on one page |
| Pagination.MendedWalkIsComplete | crates/gear5-api/src/routes/cards.rs:172-183 | with a cursor from the last kept row, every row is emitted once, in order |
| RegexEscape.EscapeNeedle | crates/gear5-api/src/routes/cards.rs:348-360 | the loop computes the escaped needle |
| RegexEscape.EscapeIsLiteral | crates/gear5-api/src/routes/cards.rs:348-360 | read with PostgreSQL's own special characters, listed apart from the escaper's, the escaped needle is exactly its literal characters, and unescaping undoes it |
| RegexEscape.EscapeIsInjective | crates/gear5-api/src/routes/cards.rs:348-360 | different needles escape differently |
| RegexEscape.EscapeDistributes | crates/gear5-api/src/routes/cards.rs:348-360 | escaping distributes over concatenation |
| RegexEscape.FoundIffAtBoundary | crates/gear5-api/src/routes/cards.rs:317 | the pattern is found exactly where the needle occurs at a word boundary |
| RegexEscape.FoundIffWordStart | crates/gear5-api/src/routes/cards.rs:317 | a needle starting with a word character is found exactly in texts with a word that begins with it |
| Labels.SpacesAre | crates/gear5-core/src/scraper/parse.rs:21-23 | white space is the 25 Unicode White_Space characters |
| Labels.TrimIs | crates/gear5-core/src/scraper/parse.rs:31-40 | trimming takes all white space, and nothing else, off both ends |
| Labels.CollapseKeepsWords | crates/gear5-core/src/scraper/parse.rs:21-23 | collapsing keeps the word list and is idempotent |
| Labels.CollapseIsCanonical | crates/gear5-core/src/scraper/parse.rs:21-23 | two texts collapse alike if and only if they have the same words |
| Labels.HeadingIsStripped | crates/gear5-core/src/scraper/parse.rs:31-40 | of a heading followed by a value, whatever white space precedes, separates or follows them, the collapsed value remains |
| Labels.OtherTextIsKept | crates/gear5-core/src/scraper/parse.rs:31-40 | a text that does not begin with the heading is kept whole, collapsed |
| Scheduler.RunLoop | crates/gear5-api/src/scheduler.rs:11-20 | the loop's entries are those of the model, for any run times |
| Scheduler.TargetIsTheHour | crates/gear5-api/src/scheduler.rs:47-58 | in nanoseconds: the target is the full hour asked for, at most 23, of a UTC day within the next 24 hours |
| Scheduler.TargetIsNextSlot | crates/gear5-api/src/scheduler.rs:47-58 | the target is the first daily slot strictly after now |
| Scheduler.WakeIsNearTarget | crates/gear5-api/src/scheduler.rs:47-62 | the delay is within 60 and 86400 seconds and ends less than a second before or a minute after the slot |
| Scheduler.EverySlotIsServed | crates/gear5-api/src/scheduler.rs:11-20 | over the unbounded loop every slot gets such a wake or falls within a run |
| Scheduler.AtMostTwoSleepsPerSlot | crates/gear5-api/src/scheduler.rs:11-20 | no slot is the target of three sleeps |
| Scheduler.SleepsAgainIff | crates/gear5-api/src/scheduler.rs:11-20 | a slot is slept for again if and only if its sleep began at least a minute before it and the run took less than the fraction of a second the sleep fell short |
| Scheduler.TwoSleepsHappen | crates/gear5-api/src/scheduler.rs:47-62 | a slot that two sleeps target |

## Left out

- HTTP fetching, retries and pauses between pages: a visit comes with the page it fetched. A fetch that fails is a refused call, one that is abandoned a dropped one.
- HTML parsing and CSS selection: a page is its text together with the cards found in it, and equal texts are taken to have equal cards; the model does not parse.
- Descriptive card columns: one field stands for them all, because they are only copied and hashed.
- Image downloads: they never touch tables or counters. Being dropped while waiting for one is the same as being dropped at the next call.
- Two scrapers at once: callers serialise runs; only the startup cleanup of another process interleaves.
- 32-bit counters: the totals are unbounded integers.
- Argon2, SHA-256 and key generation: verification is exact, digests are injective, and a new key's random parts are inputs. The truncated look-up prefix may collide.
- Clock differences between the database and the API: there is one clock, which never goes back.
- Sleep inaccuracy and lock waiting in the scheduler: a sleep is exact; the wait for the lock is part of a run's time.
- Scheduler.RunLoop: runs a given number of turns, because a method must end; the theorems about the loop are over all turns.
- Database collation: codes are ordered by their characters, as are the ensured set ids.
- List filters other than the cursor: a listing starts from the matching codes.
- What a search finds: trigram similarity, accent removal and the merge of prefix and fuzzy results are one abstract function of catalogue, needle and limit; lowercasing is a parameter.
- Regular expressions beyond literals and word boundaries: an escaped needle produces no other token, so operators are read but not given a meaning.
- Rate limits, scopes, routing, configuration, logging, the command line, the response bodies and the other fields of the health report.
- A dump that overlaps a run: dumps are taken between runs.
