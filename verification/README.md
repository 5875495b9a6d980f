# A model of the statement analyzer

The statement analyzer takes images of card statements, has a model read them, stores the
transactions it finds, and reports on them month by month. This project models the parts of it where
something can go wrong between two correct-looking lines, and proves what they promise.

**The processing protocol** (`Statements`, `Protocol`, `ProtocolInvariant`, `ProtocolSafety`,
`ProtocolQueue`, `ProtocolFailures`, `ProtocolRefinement`, `ProtocolRecovery`, `ProtocolWindow`,
`ProtocolReports`, `ProtocolOverflow`, `ProtocolJournals`, `ProtocolRequests`). A labelled step system over the statements and transactions tables, the row lock, the job queue with its receive counts and dead-letter queue, any
number of deliveries and of API requests, and a clock. Every delivery of a message starts an attempt
with a fresh token. The handler and the calls it has issued move separately, so crashes, calls that
throw after taking effect, duplicate deliveries, expired leases and stale workers are ordinary runs.
`NOW()` is captured when a transaction begins; the save locks the row, upserts line by line, updates the
row and commits in steps of their own. `Inv` is kept by every step; the theorems about all reachable
states and all runs rest on it.

**The same operations as code** (`CallJournal`, `StatementRepository`, `JobQueue`, `JobErrors`,
`Interference`, `JobHandler`, `ApiHandlers`). The repository is a class over the two tables whose
methods state their whole effect, faults included, and note every write in a journal of its caller; so
does the sending side of the queue. The job handler and the API handlers call both while the rest of the
system may do anything in between that keeps `Progresses`, which `RunsProgress` shows every run to keep
and which the handlers themselves keep. What a handler does is stated over the journal of its own calls,
and these journals are exactly what the protocol's attempts and requests do (`ProtocolJournals`,
`ProtocolRequests`).

**Reports** (`Months`, `Aggregation`, `Sorting`, `MonthlyAnalytics`). Month ranges, GROUP BY, the
safe-integer guard, percentages in tenths of a percent, and the report from transactions to ordered
lines.

**Insights** (`InsightsInput`, `Texts`, `Documents`, `InsightsValidation`, `InsightsClaims`,
`InsightsCache`, `InsightsService`). Canonical form and fingerprint, schema and validator, what an accepted
claim says about the transactions, double-checked generation under the advisory lock as an
interleaving of any number of requests, and one request as the service runs it.

**The worker** (`WorkerTrace`, `AnalyzeWorker`). The loop as a class with the program's fields, over any
answers of queue and handler, any durations and any signals. What it does is recorded as a trace, and
`Polite` is the law for traces, stated without the loop's variables.

**Kernels** (`Calendar`, `OcrSchema`, `OcrLimits`, `Migrations`, `Bytes`, `ObjectBody`, `Crc`, `Png`). The calendar
check, the OCR schemas, the migration runner, the bounded body reader, and the PNG builder with its
checksum.

`dafny verify dfyconfig.toml` checks everything.

## What turned out to be false, and when it holds

- The calendar check refuses real dates before the year 100, because `Date.UTC` reads the years 0 to 99
  as 1900 to 1999: `Calendar.FirstCenturyIsRefused`. `Calendar.CheckIsGregorian` gives the exact
  condition.
- A redelivered message does not always find the lease of the earlier delivery expired. A claim whose
  transaction starts 300 seconds or more after the receipt leaves a lease that a redelivery may find
  alive: `ProtocolWindow.LateClaimShutsOutRedelivery` runs, for every such delay, from the start to a
  refused claim on a PROCESSING statement. `ProtocolQueue.ClaimWindowIsExact` gives the exact window, and
  `ProtocolQueue.RedeliveryFindsLeaseExpired` what holds when claims keep it.
- The monthly report throws in some states the system can get into. `ProtocolOverflow.ReportBoundIsExact`:
  with n completed statements it never does if and only if n is at most 900,719, for every range that holds
  a date the schemas accept. `ProtocolOverflow.TooManyStatementsThrow` is the run, for every larger n and
  every full OCR result the schemas accept; `OcrLimits.FullResultIsAccepted` gives such a result.
- Migrating with part of a directory and later with all of it is not always migrating once with all. It
  is if and only if no missing file of the part is listed after a missing file left out:
  `Migrations.PartsComposeIfInFront`. So files with higher numbers may come later
  (`Migrations.LaterFilesMayComeLater`) and files with lower ones may not
  (`Migrations.EarlierFilesMayNot`; `Migrations.SecondThenBoth` is an instance).
- A migration run that reports a failure has not always changed nothing:
  `Migrations.LostReplyIsNotRolledBack`, where only the reply to the COMMIT is lost.
  `Migrations.FailedRunChangesNothing` gives the exact condition.
- A save may commit after its lease has run out, and its result stands:
  `ProtocolWindow.CommitLandsBeyondTheLease` runs from the start to such a commit, for every analysis and
  every delay, and `ProtocolSafety.CommitMayLandLate` says it of any state. Nothing is lost by it, since only the holder of the row's current
  token can end a statement.

## Model

| member | source | states |
|---|---|---|
| ProtocolInvariant.StepKeeps | src/database/statement-repository.ts:360-880 | every step of API, queue, worker, server and clock keeps the invariant tying rows, locks, attempts, messages and requests together |
| ProtocolInvariant.FinalUpdateMatches | src/database/statement-repository.ts:850-874 | behind the row lock the second check of token and lease always matches, however late it comes |
| ProtocolSafety.ExactlyOnce | src/database/statement-repository.ts:772-880 | under any interleaving a statement has transactions only when COMPLETED, and then exactly the lines of the one attempt that won |
| ProtocolSafety.NothingStoredForUnknown | src/database/statement-repository.ts:801-848 | no transactions are ever stored for a statement that does not exist |
| ProtocolSafety.OnlyTokenHolderEnds | src/database/statement-repository.ts:491-518 | a statement becomes COMPLETED or FAILED only through the attempt whose token its row carries at that moment |
| ProtocolSafety.AtMostOneEnding | src/database/statement-repository.ts:497-517 | over any run a statement has at most one terminal transition |
| ProtocolSafety.TerminalAbsorbs | src/worker/analyze-job-handler.ts:69-71 | after a terminal status neither the row nor its transactions ever change |
| ProtocolSafety.CommitMayLandLate | src/database/statement-repository.ts:782-874 | a save whose row update is done held token and live lease at its BEGIN, may commit any time later, beyond the lease too, and completes the statement |
| ProtocolWindow.CommitLandsBeyondTheLease | src/database/statement-repository.ts:782-874 | for every analysis and every delay beyond the lease there is a run from the start in which a save commits when the lease of its PROCESSING statement is over, and completes it with exactly the analysis |
| ProtocolSafety.StatusFollowsEdges | src/database/statement-repository.ts:417-471 | each step moves a status along an edge of the life cycle or leaves row and transactions alone |
| ProtocolSafety.StatementsStartPending | src/database/statement-repository.ts:324-358 | a new row appears only by creation, in UPLOAD_PENDING |
| ProtocolSafety.LifeCycle | src/database/statement-repository.ts:417-518 | over any run a status only moves forward, apart from the API's step back from QUEUED to UPLOADED |
| ProtocolSafety.ShapeOfEveryRow | src/database/statement-repository.ts:371-386 | in every reachable state token and lease are set exactly in PROCESSING, and failure code and processing time fit the status |
| ProtocolSafety.ResetUndoesOwnMark | src/app.ts:803-826 | a compensating reset that changes anything takes back the queueing of its own request |
| ProtocolSafety.RunsProgress | src/worker/analyze-job-handler.ts:127-418 | over any run statements stay, never return to UPLOAD_PENDING, and keep row and lines once terminal |
| ProtocolSafety.DeletedOnlyWhenSettled | src/worker/analyze-worker.ts:290-307 | a deleted message's statement is absent, COMPLETED or FAILED |
| ProtocolSafety.ProcessingHasMessage | src/worker/analyze-job-handler.ts:87-93 | every PROCESSING statement still has a message in the queue or the dead-letter queue |
| ProtocolSafety.QueuedHasMessageOrOpenRequest | src/app.ts:745-848 | a QUEUED statement without a message has exactly one request between queueing and sending to blame |
| ProtocolSafety.AcceptedJobIsKept | src/app.ts:840-848 | a job answered with 202 is settled or its message is still there |
| ProtocolFailures.FailedForTheErrorItMet | src/worker/analyze-job-handler.ts:309-418 | in every reachable state a FAILED statement carries the code that the classification gives to the very error, in the stage, which the attempt that closed it met under its claim; never a database error, an abort, or PROCESSING_FAILED |
| ProtocolQueue.BoundedClaims | infra/lib/messaging-stack.ts:40-52 | a statement is claimed at most three times for every message sent for it |
| ProtocolQueue.QueueStepsBounded | infra/lib/messaging-stack.ts:40-52 | without new sends the queue takes at most as many steps as its backlog measures |
| ProtocolQueue.FullRunsDrain | infra/lib/messaging-stack.ts:40-52 | every run without sends that takes as many queue steps as its backlog measures ends with all messages deleted or in the dead-letter queue |
| ProtocolQueue.StepAfterWaiting | infra/lib/messaging-stack.ts:40-52 | as long as a message is left, a queue step is possible after some wait, so such runs are never cut short |
| ProtocolQueue.Drains | infra/lib/messaging-stack.ts:40-52 | and from every reachable state waiting and queue steps alone make one |
| ProtocolQueue.ClaimWindowIsExact | src/database/statement-repository.ts:38 | a claim's lease ends before every redelivery if and only if it starts within 300 seconds of its receipt |
| ProtocolWindow.LateClaimShutsOutRedelivery | src/database/statement-repository.ts:371-386 | for every claim started 300 seconds or more after its receipt there is a run from the start in which the redelivered job, visible again, is refused while its statement is PROCESSING |
| ProtocolQueue.RedeliveryFindsLeaseExpired | src/worker/analyze-job-handler.ts:162-193 | with timely claims and one message, the latest delivery's claim is granted if and only if there is something to process |
| ProtocolRefinement.SaveRefines | src/database/statement-repository.ts:772-880 | the protocol's save, step by step, leaves exactly the tables the repository's save method ensures |
| ProtocolJournals.EntryTellsTheTables | src/worker/analyze-job-handler.ts:127-418 | a step noted as a write that took effect leaves row and lines as noted, and any other step on behalf of an attempt leaves the tables alone |
| ProtocolJournals.AttemptsDoWhatHandlersMay | src/worker/analyze-job-handler.ts:127-418 | over every run, what is done for an attempt is nothing or the journal of some handler execution |
| ProtocolJournals.HandlersDoWhatAttemptsMay | src/worker/analyze-job-handler.ts:127-418 | every journal a handler may leave, with an analysis the schemas let through, is what some run from the start does for an attempt |
| ProtocolRequests.RequestsDoWhatHandlersMay | src/app.ts:745-848 | over every run, what is done for a request is the journal of some analyze request that queued its statement |
| ProtocolRequests.HandlersDoWhatRequestsMay | src/app.ts:745-848 | every journal of an analyze request that queued its statement is what some run from the start does for a request |
| ProtocolRecovery.CanAlwaysComplete | src/database/statement-repository.ts:360-401 | from every reachable state a queued or processing statement with a receivable message can still be completed with any analysis the schemas may let through |
| ProtocolReports.AcceptedMayBeSaved | src/ai/ocr-schema.ts:133-156 | whatever the OCR schemas accept is an analysis the protocol may go on to save |
| ProtocolReports.StoredLinesAreBounded | src/ai/ocr-schema.ts:62-90 | in every reachable state the stored lines of a statement are numbered 1 to 100 and within the amounts an analysis may contain |
| ProtocolReports.ReportsNeverThrow | src/database/statement-repository.ts:260-268 | in every reachable state with at most 900,719 completed statements the monthly aggregates are returned exactly and never throw |
| ProtocolOverflow.TooManyStatementsThrow | src/database/statement-repository.ts:260-268 | for every n beyond 900,719 and every full OCR result the schemas accept there is a run from the start after which exactly n statements exist, all completed with it, and the report throws |
| ProtocolOverflow.ReportBoundIsExact | src/database/statement-repository.ts:260-268 | no reachable state with n completed statements makes the report throw if and only if n is at most 900,719, for every range that holds a date the schemas accept |
| OcrLimits.FullResultIsAccepted | src/ai/ocr-schema.ts:44-127 | for every date the schemas accept they accept a result of 100 lines of that date, each of the largest amount |
| Statements.UpsertAllStoresEach | src/database/statement-repository.ts:801-848 | upserting lines of distinct numbers stores each of them and nothing else |
| Statements.UpsertAllOver | src/database/statement-repository.ts:801-848 | lines that were there before never hide what an upsert writes |
| StatementRepository.Repository.Create | src/database/statement-repository.ts:324-358 | a new id gets a pending row, a taken one is refused and nothing changes |
| StatementRepository.Repository.ClaimForProcessing | src/database/statement-repository.ts:360-401 | the row is taken over exactly if it is queued, or processing with an expired lease, with new token, start and lease |
| StatementRepository.Repository.MarkUploaded | src/database/statement-repository.ts:417-433 | UPLOAD_PENDING becomes UPLOADED, anything else stays |
| StatementRepository.Repository.MarkQueued | src/database/statement-repository.ts:435-451 | UPLOADED becomes QUEUED, anything else stays |
| StatementRepository.Repository.ResetQueuedToUploaded | src/database/statement-repository.ts:453-471 | QUEUED becomes UPLOADED, anything else stays |
| StatementRepository.Repository.MarkFailed | src/database/statement-repository.ts:491-518 | only the holder of token and live lease marks the failure, and is told so |
| StatementRepository.Repository.SaveTransactionsAndComplete | src/database/statement-repository.ts:772-880 | all or nothing under any failing query: completed with exactly the upserted lines, or nothing changed; success is reported exactly if it took effect and no query up to the COMMIT threw |
| JobHandler.HandleJob | src/worker/analyze-job-handler.ts:127-418 | the writes are one claim, taken exactly if the row was claimable, and only after a granted claim that was heard of the save of the analysis or the failure mark with the met error's code; the answer is fixed by the writes and by whether the statement is settled: what took effect and was heard is acknowledged, thrown is exactly an unheard failure mark; acknowledged means absent or terminal, with the analyzed lines or that code where this job settled it; a terminal statement keeps row and lines; the rest of the system is at work between all calls |
| ApiHandlers.CreateStatement | src/app.ts:464-522 | 201 exactly when the address was signed and the creation heard to succeed on a free id, a conflict exactly on a taken one, 503 otherwise; the only write is that creation |
| ApiHandlers.CompleteUpload | src/app.ts:525-675 | the only write is one upload mark, made exactly when the statement was found waiting and an object of the announced type and length in the store; every answer is fixed by what the calls found, and none shows a pending or failed statement |
| ApiHandlers.Analyze | src/app.ts:677-849 | a job is sent exactly after this request's own queueing took effect and was heard to; 202 exactly if the send was heard to succeed; after any other send the reset is called and no queued statement is left behind, unless that call does not get through; every other answer is fixed by what the calls found |
| ApiHandlers.SendOrReset | src/app.ts:803-838 | one send, and one reset exactly when the send was not heard to succeed and the reset gets through, after which the statement is not queued |
| Months.ShiftsUndoEachOther | src/analytics/monthly-analytics.ts:62-68 | shifting by one month and back again gives the month one started from |
| Months.ShiftsCompose | src/analytics/monthly-analytics.ts:62-68 | shifting twice is shifting by the sum |
| Months.MonthsTile | src/analytics/monthly-analytics.ts:84-96 | a month's range holds exactly that month's dates, so every date lies in exactly one |
| Months.RangesAreAbuttingMonths | src/analytics/monthly-analytics.ts:70-97 | exactly the months of the common era are accepted; current and previous range are month ranges that abut |
| Aggregation.GroupByGroups | src/database/statement-repository.ts:580-600 | one bucket per name that occurs, holding sum and number of exactly its transactions |
| Aggregation.GroupByConserves | src/database/statement-repository.ts:566-630 | categories, merchants and the overview account for the same money and the same number of transactions |
| Aggregation.MonthTotalsAddUp | src/database/statement-repository.ts:566-630 | the totals of consecutive months add up to the total over their union |
| Aggregation.SourceSplit | src/database/statement-repository.ts:566-630 | a range cut at any day splits totals and counts without loss |
| Aggregation.AggregatesStaySafe | src/database/statement-repository.ts:260-268 | within the OCR bounds and with at most 900,719 completed statements no aggregate leaves the safe-integer range |
| Aggregation.OneMoreStatementOverflows | src/database/statement-repository.ts:260-268 | more statements, each with 100 lines of the largest amount within the range, stay within the same limits and make the guard throw |
| MonthlyAnalytics.NearestIsToFixed | src/analytics/monthly-analytics.ts:99-109 | rounding picks exactly the nearest tenth, ties away from zero |
| MonthlyAnalytics.PositiveChange | src/analytics/monthly-analytics.ts:111-117 | a change is shown as positive exactly when it is at least 0.05 % of the previous magnitude |
| MonthlyAnalytics.PercentagesNearlySumTo100 | src/analytics/monthly-analytics.ts:103-157 | with a nonzero net total, refunds allowed, k percentages sum to within 0.05 k of 100 |
| MonthlyAnalytics.ReportIsExact | src/analytics/monthly-analytics.ts:134-215 | every line of the report is what the transactions of both months say, and the lines account for the whole month |
| MonthlyAnalytics.ReportIsOrdered | src/analytics/monthly-analytics.ts:119-132 | largest amount first, ties by name, every name once |
| MonthlyAnalytics.ReportIsComplete | src/analytics/monthly-analytics.ts:134-182 | every name that occurs in the month is reported |
| Sorting.SortAscends | src/analytics/monthly-analytics.ts:142 | the sort arranges its input in ascending order |
| Sorting.AscendingIsUnique | src/insights/monthly-insights.ts:136-155 | where no two elements tie there is only one ascending arrangement |
| InsightsInput.FingerprintDecides | src/insights/monthly-insights.ts:136-170 | with distinct names, two inputs have the same canonical form exactly when they differ at most in the order of their buckets |
| InsightsValidation.ParsedDocumentIsStable | src/insights/monthly-insights.ts:5-52 | what the schema accepted, stored and read back, it accepts again as the same document |
| InsightsValidation.ValidateAgrees | src/insights/monthly-insights.ts:209-264 | the validator cannot tell inputs of the same fingerprint apart |
| InsightsValidation.StoredDocumentRevalidates | src/insights/monthly-insights-service.ts:243-263 | a stored document revalidates to itself for every input of its fingerprint |
| InsightsClaims.AcceptedExactlyIfTrue | src/insights/monthly-insights.ts:196-264 | for real transactions the validator accepts exactly the true claims: the named bucket rose by at least 0.05 %, or occurs |
| InsightsClaims.RealInputsAreDecided | src/insights/monthly-insights.ts:116-170 | for inputs made from transactions the fingerprint decides equality up to order |
| InsightsCache.StepKeeps | src/insights/monthly-insights-service.ts:114-240 | every step of any number of concurrent requests keeps the cache invariant |
| InsightsCache.OneGenerationPerLock | src/database/statement-repository.ts:729-770 | two transactions never hold the same generation lock together |
| InsightsCache.NoRepeatedGeneration | src/insights/monthly-insights-service.ts:144-240 | between two committed generations for the same key lies a committed save of the month under another key |
| InsightsCache.AnswersFit | src/insights/monthly-insights-service.ts:208-238 | whatever a request answers the validator accepts as it is, schema and claims, for the request's own analytics |
| InsightsCache.OwnRowsAreHits | src/insights/monthly-insights-service.ts:243-263 | a row the service committed is a hit for every request of its key |
| InsightsCache.FailedNeverCommits | src/database/statement-repository.ts:754-769 | a request whose generation failed commits nothing in any run |
| InsightsCache.FailureFreesTheLock | src/insights/monthly-insights-service.ts:193-229 | a generator that throws or whose result is refused leaves row and log alone, and the rollback frees the lock |
| InsightsService.MonthlyInsightsService.GetMonthlyInsights | src/insights/monthly-insights-service.ts:93-241 | a usable row is the answer and nothing is generated; it is generated exactly if neither look-up finds one; every answer revalidates; the table afterwards is given for every combination of failing calls |
| WorkerTrace.NothingNewAfterShutdown | src/worker/analyze-worker.ts:90-142 | after a shutdown request no receive starts, no retry is waited for, and no second request counts |
| WorkerTrace.HandlersNeverOverlap | src/worker/analyze-worker.ts:235-258 | between two handler starts the first handler has ended or was abandoned |
| WorkerTrace.NoHandlerAfterTimeout | src/worker/analyze-worker.ts:275-288 | after an abandoned handler no other handler ever starts |
| WorkerTrace.FailuresWaitInvalidMessagesDoNot | src/worker/analyze-worker.ts:117-150 | the k-th receive failure since the last success is followed by a wait of min(1000 * 2^(k-1), 30000) ms; an invalid message neither waits nor changes k |
| WorkerTrace.DeleteFollowsItsHandler | src/worker/analyze-worker.ts:290-307 | a delete is attempted only for a received job whose own handler completed without RETRY |
| WorkerTrace.OverByTheDeadline | src/worker/analyze-worker.ts:170-205 | if receives end by the deadline once aborted, handler, delete and stop are over by the one deadline |
| AnalyzeWorker.Worker.Run | src/worker/analyze-worker.ts:104-164 | every run over any turns obeys the law for traces, reports what its turns bring, and ends stopped once shutdown is requested |
| AnalyzeWorker.Worker.RunWithShutdownTimeout | src/worker/analyze-worker.ts:170-205 | the operation's own outcome when it settles, or a timeout exactly at the deadline and only if it had not settled before |
| AnalyzeWorker.Worker.RequestShutdown | src/worker/analyze-worker.ts:90-102 | the first request sets the deadline, later ones change nothing |
| AnalyzeWorker.Worker.ProcessJob | src/worker/analyze-worker.ts:235-349 | handler, then delete only after completion without RETRY, both by the same deadline |
| Calendar.CheckIsGregorian | src/ai/ocr-schema.ts:199-211 | for every string of the pattern the check holds if and only if it is a real Gregorian date of the year 100 or later |
| Calendar.FirstCenturyIsRefused | src/ai/ocr-schema.ts:204 | 29 February 96 is real and refused |
| Calendar.DateComesBack | src/ai/ocr-schema.ts:204-210 | a real date comes back from its day number |
| Calendar.DayNumberComesBack | src/ai/ocr-schema.ts:204-210 | every day number is that of a real date and comes back from it |
| Calendar.NextDayHasNextNumber | src/ai/ocr-schema.ts:204-210 | the day after, by the rules of months and leap years, has the next number |
| OcrSchema.ValidateLineNumbers | src/ai/ocr-schema.ts:181-197 | one issue, in order, for exactly the lines whose number repeats an earlier one |
| OcrSchema.SecondPassNeverRefuses | src/ai/ocr-schema.ts:133-156 | the second validation never refuses and changes nothing |
| OcrSchema.AcceptedIsSound | src/ai/ocr-schema.ts:44-127 | every accepted line has a real date, trimmed names, bounded nonzero amount, and a subcategory exactly if its category has any |
| OcrSchema.SoundIsAccepted | src/ai/ocr-schema.ts:80-156 | every list with these properties can be written so that it is accepted as it is |
| OcrSchema.AcceptedFitsTheTables | src/ai/ocr-schema.ts:62-90 | accepted results have distinct line numbers and stay within the bounds the sums rely on |
| Migrations.Database.RunMigrations | src/database/migrate.ts:51-90 | outcome and schema for every combination of failing calls: done exactly if all succeed, migrated exactly if all up to the COMMIT succeed and the COMMIT takes effect, unchanged otherwise |
| Migrations.Database.ApplyMissing | src/database/migrate.ts:67-83 | the loop succeeds exactly if its calls do, and then has run and recorded exactly the missing files, in order |
| Migrations.RunAppliesExactlyTheMissing | src/database/migrate.ts:25-36 | a run records exactly the directory's missing versions, in ascending numeric order, none twice |
| Migrations.RerunIsNoOp | src/database/migrate.ts:68-75 | a second run over the same names does nothing |
| Migrations.FailedRunChangesNothing | src/database/migrate.ts:38-90 | a failed run leaves the schema as it was if and only if it did not come to its COMMIT, or the COMMIT did not take effect, or there was nothing to do |
| Migrations.LostReplyIsNotRolledBack | src/database/migrate.ts:84-86 | a run on an empty database whose only failing call is a COMMIT that took effect reports a failure and leaves the migrated schema |
| Migrations.PartsComposeIfInFront | src/database/migrate.ts:25-36 | migrating with any part of a directory and later with all is migrating once with all if and only if no missing file of the part is listed after a missing one left out |
| Migrations.LaterFilesMayComeLater | src/database/migrate.ts:28-34 | so files of higher numbers may come later |
| Migrations.EarlierFilesMayNot | src/database/migrate.ts:28-34 | and a missing file of a lower number that comes after one of a higher number has run leads to another schema, whatever the directory |
| ObjectBody.Collect | src/storage/s3-object-store.ts:80-124 | the chunks of a readable stream, or the error of its first bad item; what is kept never exceeds 10 MiB, and the reader is released |
| ObjectBody.ReadObjectBody | src/storage/s3-object-store.ts:70-138 | exactly the body's bytes if they are bytes within the limit, an error otherwise |
| ObjectBody.GetObject | src/storage/s3-object-store.ts:196-242 | success exactly when the announced length is present, within the limit and that of the body |
| Bytes.Concat | src/ai/synthetic-statement-fixture.ts:43-51 | the parts one after the other fill the buffer |
| Bytes.SetAt | src/storage/s3-object-store.ts:131-136 | a part is copied to its offset and the rest of the buffer stays |
| Crc.ChecksumIsTheRemainder | src/ai/synthetic-statement-fixture.ts:53-62 | for all byte sequences the checksum is the remainder of the division of section 3.4 of RFC 2083 |
| Crc.Crc32 | src/ai/synthetic-statement-fixture.ts:53-62 | the nested loops compute the checksum |
| Crc.ChecksumNoticesOneByte | src/ai/synthetic-statement-fixture.ts:53-62 | changing one byte changes the checksum |
| Png.PngChunk | src/ai/synthetic-statement-fixture.ts:64-73 | the written buffer is length, type, data and checksum |
| Png.ChunksComeBack | src/ai/synthetic-statement-fixture.ts:64-73 | decoding a concatenation of chunks gives exactly those chunks, checksums verified |
| Png.OneBadByteIsRefused | src/ai/synthetic-statement-fixture.ts:64-73 | a chunk with one byte of type, data or checksum changed is refused |
| Png.BuildScanlines | src/ai/synthetic-statement-fixture.ts:118-123 | every row of pixels after its filter byte |
| Png.PixelsComeBack | src/ai/synthetic-statement-fixture.ts:118-123 | stripping the filter bytes gives back the pixels |
| Png.CreatePng | src/ai/synthetic-statement-fixture.ts:118-138 | the file is the signature and the three chunks |
| Png.FileComesBack | src/ai/synthetic-statement-fixture.ts:125-137 | a reader of the file finds exactly the three chunks |
| Png.ImageComesBack | src/ai/synthetic-statement-fixture.ts:118-137 | the header shows the size, and behind the compression are the very pixels |

## Left out

- Unique identifiers: processing tokens are the indices of the attempts and statement ids are numbers, so
  that both are fresh by construction.
- Time: the clock is one clock, in microseconds in the protocol and milliseconds in the worker; timers
  fire exactly when due, and a signal at the very instant an operation settles counts as the earlier.
- Columns no decision depends on: object key, content type and length, owner, target month, creation
  time, and the message texts of failures.
- `updateStatus` (src/database/statement-repository.ts:473-489): an unconditional write nobody calls.
- The diagnostic consumer, message retention, manual deletion of rows, and moving messages back from the
  dead-letter queue.
- Database errors other than a failing query of the save; isolation is that of committed reads, row
  locks and advisory locks, and a statement that waits for a lock is one that has not yet been enabled.
- SQL collation in ORDER BY: the report sorts its lines again, and grouping does not depend on it.
- IEEE 754: amounts and percentages are exact; percentages count tenths of a percent.
- InsightsInput.FingerprintDecides: the fingerprint is the canonical document itself, so serialization and
  hash are taken as injective; the lock id is any function of month, model and prompt.
- The text of a month: months are pairs of numbers. January of the year 1 has a previous month in the
  year 0, which the database would refuse.
- Issue texts of the schemas: a refusal is one error, whatever the first issue says. JSON numbers are
  reals. U+0000 and lone surrogates, which jsonb refuses although an insights text may hold them, are not
  treated apart: their save fails like any other.
- Which Bedrock and S3 errors count as retryable: the list of names is one kind of error in `JobErrors`.
- AnalyzeWorker.Worker.Run: an injected sleep function and the log lines are not modelled; turns are
  finitely many, so that a run without a shutdown ends where the observer stops watching.
- JobHandler.HandleJob: the lease duration is whatever the caller passes; the abort signal is one of the
  ways in which download and analysis fail.
- ProtocolRequests.HandlersDoWhatRequestsMay: an analyze request whose queueing changes no row writes
  nothing, and has no request in the protocol.
- ApiHandlers.CompleteUpload: the comparison of type and length is one truth value of the head request.
- Migrations.Database.RunMigrations: what a script does is its place in the list of scripts run; two
  runners at the same time, and file numbers beyond the exact integers, are not modelled.
- ProtocolQueue.RedeliveryFindsLeaseExpired: stated for one message per statement, as with two the other
  message's delivery may hold the lease.
- WorkerTrace.OverByTheDeadline: a receive that ignores its abort signal may return later than the
  deadline, and the worker with it.
- Png.PngChunk: types are four bytes, as all callers pass; data of 4 GiB and more would wrap its length,
  which `EncodeChunk` shows and `ChunksComeBack` excludes.
- Drawing text and lines, glyphs, and the compression, which is any function with an inverse.
- Prompts, token accounting, logging, configuration, presigned addresses, CORS, server start and the
  CDK stacks apart from the queue's visibility timeout and receive limit.
