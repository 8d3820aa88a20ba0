# Aegis, verified

A Dafny model of the stateful logic of Aegis, a security-telemetry platform, with proofs about it. Events
travel from agents through a gateway and a durable stream to a worker, which folds them into findings; a
control plane decides who is signed in and who may do what. The model follows the source branch by branch
and proves what each part is there for. `dafny verify dfyconfig.toml` checks everything.

## What is modelled

| module | part of the system | main results |
|---|---|---|
| `Worker`, `WorkerLoop`, `LoopProgress`, `FileTail` | tailing a growing file, the persisted cursor, retries, the run loop | at-least-once delivery, convergence after any run, exactly once without repeats, a loop without shutdowns and endless outages reads everything |
| `Findings`, `Pipeline`, `Convergence`, `Identities`, `Evidence`, `EvidenceRuns` | folding events into findings, one transaction per tenant | grouping and batching keep the meaning, replays are absorbed, what a finding tells apart, evidence is bounded |
| `Quota`, `Ingest`, `Admission`, `Reserve`, `IngestCases` | token bucket, shedding, deduplication, the batch loop | the bucket is its admission history, every window of a gateway run keeps its allowance, the security reserve over whole runs, when exactly an answered event is on the stream |
| `EndToEnd` | the gateway's stream and the worker together | deliverable findings arrive, and no others |
| `Sessions`, `SessionRules` | refresh tokens, rotation, reuse detection, session cap | families are chains and end with their time to live, reuse is terminal, the cap holds |
| `Rbac`, `Authority` | roles, memberships, invitations, API keys | no permission amplification, there is always an owner, when exactly each action is done |
| `CefText`, `CefLine`, `CefFields` | the CEF printer | the line reads back, for arbitrary text, field by field |
| `Uuid7`, `Broadcast` | id generator, event broadcaster | order of ids, gapless bounded suffixes |

`Prelude` holds the result types. Where the source updates state in place the model does too: classes with
those fields, loops with invariants, each method tied to a function of the state before it; the theorems
over runs are about those functions.

The worker is a step machine. What survives a crash is the file, the cursor and the database; what does not
is the tail. The writer may append any bytes at any moment, a fold may fail after any number of tenants were
committed, the last one included, a crash may fall anywhere, also between replacing the cursor file and
forgetting the batch, and analysts may triage in between. `WorkerLoop.RunLoop` is the loop of the source; its contract says that on
every schedule it ends where the step machine ends, so the theorems of `Worker` are about it.

## Where code and documentation differ

The model follows the code. The lemmas named give, for all inputs, the exact condition under which the
documented behaviour holds, and a concrete case in which it does not.

- Evidence is said to be one sample per finding per interval
  (`apps/api/src/aegis_api/application/findings.py:382`). A finding suppressed after its first occurrence keeps
  its count at one, so every further event stores a sample:
  `SuppressionLiftsTheLimit`, `EvidenceIsSpacedExactlyWhen`, `WithoutTriageNeverUnlimited`.
- Replaying a consumed refresh token is said to revoke the whole family
  (`apps/api/src/aegis_api/domain/entities/access.py:192-195`). If the replayed row is itself revoked, as every
  predecessor is after a password change, the family lives on:
  `ReplayAfterPasswordChangeSpares`, `ReuseKillsExactlyWhen`.
- The last-owner check is there so that an organization stays administrable
  (`apps/api/src/aegis_api/infrastructure/db/repositories.py:398-399`), but it counts invited and suspended
  owners: `LastActiveOwnerCanLeave`, `RemovalLosesActiveOwnersExactlyWhen`,
  `DemotionLosesActiveOwnersExactlyWhen`.
- `to_cef` is said to give one CEF line; header fields keep their line breaks: `TitleCanBreakTheLine`,
  `OneLineExactly`.
- The retry hint is said to be rounded up; a whole wait gets one second more:
  `WholeWaitGetsASecondMore`, `HintRoundsUpExactlyWhen`.
- The UUID counter is said to borrow a millisecond when it wraps so that the order holds; the next call drops
  it: `WrapIsReachable`, `WrapBreaksTheOrder`, `IncreasesExactlyWhen`.
- Event ids are asked to be unique per agent (`docs/08-agent-conformance.md:72`), but one cache keyed by the bare
  id serves every tenant (`apps/gateway/src/aegis_gateway/container.py:74`), so another sender's id swallows an
  event: `AnotherTenantsIdSwallowsAFinding`, `SecurityIsPublishedExactlyWhen`, `UndeliverableExactlyWhen`.
- A failed publish or a quota error is said to leave the events for a retry
  (`apps/gateway/src/aegis_gateway/application/ingest.py:144-145`); ids are remembered before that, so the retry
  is answered as duplicates, also for the events the sink had not taken: `RetryAfterSinkDownLosesAFinding`,
  `SinkFailsHalfWay`, `RetryDeliversExactlyWhen`, `LostForever`.
- A corrupt cursor is said not to stop the worker (`apps/worker/src/aegis_worker/cursor.py:41-42`); one that cannot
  be read as text does: `UnreadableCursorStopsTheWorker`, `EveryRunCanFinish`.
- The list of rejections is bounded to 20 (`apps/gateway/src/aegis_gateway/application/ingest.py:162-164`); the
  one for the batch limit can be the 21st: `TwentyFirstRejection`, `ReportAccountsForEveryLine`.

## Assumptions

- The finding identity is the tuple its hash is taken over, and token hashes stand for tokens: hashing is
  taken as injective.
- In `Identities`, class names hold no `#`, the sign that parts class and method in the key of a stack.
- Ids and tokens drawn by a generator were never drawn before.
- The agent registry and the rule catalogue do not change during a run.
- Records carry a timestamp: without one `_observed_at` falls back to the worker's clock, and the first sighting
  of a finding is then the time of its first fold, which a fold that starts over does not repeat.
- A use case is one atomic transaction. A database failure happens inside one, which is then rolled back, or is
  reported by a commit that went through.
- Sender and id identify an event: an agent that reuses an id for another event of its own is answered as if it had
  sent the same one again.
- A sink that raises has taken the first events of the batch, any number of them, and no others.
- Clock readings, random bits, what the sink and the database do, and the listing order of rows are inputs.
- Amounts and times of the token bucket are real numbers.
- In `Sessions`, `Rbac` and `Findings` the numbers that stand for ids, hashes and names mean nothing beyond being
  equal or not.

## Model

| member | source | states |
|---|---|---|
| `Worker.EveryRunConverges` | apps/worker/src/aegis_worker/main.py:69-127 | after any run of appends, polls, folds that failed part-way, commits, crashes, corrupt cursors and triage, once no complete line is left after the cursor every tenant's findings have the title, severity, confidence, signature, environments, routes and first sighting of one crash-free fold of the file, and neither its sightings nor its would-block count are smaller |
| `Worker.EveryRunDelivers` | apps/worker/src/aegis_worker/consumer.py:55-91 | in every reachable state the persisted cursor is 0 or just after a newline, and every parseable record of a complete line before it was folded at least as often as it stands in the file |
| `Worker.CommittedAreTheLines` | apps/worker/src/aegis_worker/cursor.py:30-56 | in every run without a corrupt cursor, crashes and failed folds included, the committed batches put end to end are exactly the complete non-blank lines before the cursor, in file order |
| `Worker.GentleRunsFoldOnce` | apps/worker/src/aegis_worker/main.py:115-127 | when no crash falls between a fold and its commit, no failed fold committed a tenant, and neither triage nor a corrupt cursor intervenes, the database equals one fold of the records before the cursor, each once and in order, counters included |
| `Worker.EveryRunCanFinish` | apps/worker/src/aegis_worker/main.py:119-127 | from every reachable state with a readable cursor file, as many restarts with a successful fold as there are lines left reach the state the convergence theorem speaks of |
| `Worker.UnreadableCursorStopsTheWorker` | apps/worker/src/aegis_worker/cursor.py:30-44 | with a cursor file that cannot be read as text no worker starts and nothing is delivered or committed until the file is changed, whatever else happens |
| `Worker.CoveredConverges` | apps/worker/src/aegis_worker/main.py:69-127 | the same convergence whenever the lines before some covered boundary are all there are, whatever the cursor file says |
| `Worker.RecsOfLine` | apps/worker/src/aegis_worker/main.py:105-113 | a line gives the record it parses to, and none if it does not parse; by RecsPlus a stretch gives those of its lines in order |
| `Worker.StepKeepsInvariant` | apps/worker/src/aegis_worker/main.py:69-127 | each single step, of ten kinds, keeps the invariant behind these results: boundary offsets, delivered records, and tenants caught up with what is covered |
| `FileTail.BatchIsLines` | apps/worker/src/aegis_worker/consumer.py:65-82 | one read returns exactly the complete non-blank lines between its two offsets, ends at a line boundary, and stops short of its size only when no complete line is left |
| `FileTail.LinesSplit` | apps/worker/src/aegis_worker/consumer.py:72-81 | a line boundary cuts the lines of a file in two, so batches put end to end lose and repeat nothing |
| `FileTail.LinesGrow` | apps/worker/src/aegis_worker/consumer.py:73-77 | bytes appended later, in the middle of a line or not, change none of the lines already there |
| `FileTail.StripTrims` | apps/worker/src/aegis_worker/consumer.py:79-81 | what is left of a line is a stretch of it outside which every byte is 32 or one of 9 to 13 and which neither starts nor ends with one |
| `FileTail.TextSurvives` | apps/worker/src/aegis_worker/consumer.py:79-81 | a text whose first and last bytes are none of those is what is left of it and its newline |
| `FileTail.LineIsReadBack` | apps/worker/src/aegis_worker/consumer.py:72-81 | a text without a newline that starts with an opening and ends with a closing brace, appended as a line of its own, is read back byte for byte |
| `FileTail.LineIsPolled` | apps/worker/src/aegis_worker/consumer.py:65-82 | and the next read from there returns just that text and the new end of the file |
| `FileTail.PollKeepsTailOk` | apps/worker/src/aegis_worker/consumer.py:55-63 | a poll keeps offsets on line boundaries and the pending batch equal to the lines up to its own offset, and comes back empty only when there is nothing to read |
| `FileTail.ReadBatch` | apps/worker/src/aegis_worker/consumer.py:65-82 | the readline loop computes the batch and the offset of the specification |
| `FileTail.FileTailSource.Poll` | apps/worker/src/aegis_worker/consumer.py:55-63 | hands back an uncommitted batch and changes nothing, or reads and remembers the next one |
| `FileTail.FileTailSource.Commit` | apps/worker/src/aegis_worker/consumer.py:84-91 | persists the pending offset and forgets the batch; without a pending batch nothing changes |
| `FileTail.FileCursor.Read` | apps/worker/src/aegis_worker/cursor.py:30-44 | a missing or blank file, text that is not an integer and a negative number read as 0, any other number as itself; a file that cannot be read as text raises |
| `FileTail.FileTailSource.Open` | apps/worker/src/aegis_worker/consumer.py:48-53 | a source starts at the offset its cursor reads, without a pending batch, or fails when that reading does |
| `FileTail.FileCursor.Advance` | apps/worker/src/aegis_worker/cursor.py:46-56 | wherever a crash cuts the write-then-replace off, torn write included, the next start reads the old offset or the new one; uninterrupted it is the new one |
| `WorkerLoop.RunLoop` | apps/worker/src/aegis_worker/main.py:93-137 | for every schedule of appends, failures and shutdowns the loop leaves cursor, tail and database where the step machine ends on the events that schedule stands for |
| `WorkerLoop.RunTurn` | apps/worker/src/aegis_worker/main.py:99-127 | one pass commits the source only after its fold succeeded, and stops without a commit on a shutdown |
| `WorkerLoop.ProcessWithRetry` | apps/worker/src/aegis_worker/main.py:69-90 | retries until a success or a shutdown after a failed try; the database is what those tries leave, and the sleeps are the capped doubling sequence, one per failure |
| `WorkerLoop.BackoffIsCappedDoubling` | apps/worker/src/aegis_worker/main.py:28-31 | the n-th sleep is the smaller of two to the n seconds and thirty |
| `WorkerLoop.ParseLines` | apps/worker/src/aegis_worker/main.py:105-113 | the parseable lines become records in order, every other line is counted |
| `WorkerLoop.RetryRefines` | apps/worker/src/aegis_worker/main.py:79-90 | the tries, seen as events, move the step machine exactly as they move the database |
| `WorkerLoop.EveryLoopConverges` | apps/worker/src/aegis_worker/main.py:93-137 | from any reachable state and on any schedule the loop keeps the delivery guarantee, and ends with the findings of one crash-free fold when no complete line is left |
| `LoopProgress.SteadyLoopFinishes` | apps/worker/src/aegis_worker/main.py:99-127 | if no turn asks for a shutdown and in each one some try meets a working database with no shutdown before it, then a loop that takes, after the last write, as many turns as there are lines left ends with the findings of one crash-free fold of the file, and with nothing left after its cursor unless someone had overwritten that file under the running worker |
| `LoopProgress.SteadyLoop` | apps/worker/src/aegis_worker/main.py:99-127 | each such turn is taken and, while nothing is written, leaves one line fewer to read |
| `LoopProgress.RecoveredRetrySucceeds` | apps/worker/src/aegis_worker/main.py:79-90 | a failed batch is tried again until a try succeeds: tries with a working one among them and no shutdown before it end in success |
| `LoopProgress.ShutdownEndsTheLoop` | apps/worker/src/aegis_worker/main.py:99-103 | a turn that finds a shutdown requested is not taken, nor is any after it |
| `LoopProgress.ShutdownEndsTheTries` | apps/worker/src/aegis_worker/main.py:79-90 | a shutdown in the sleep after a failed try ends the tries, and nothing is committed |
| `Worker.RunResume` | apps/worker/src/aegis_worker/main.py:93-137 | continuing a reachable state is a longer run, so what holds of every run holds of every schedule of the loop |
| `EndToEnd.DeliverableFindingsArrive` | apps/worker/src/aegis_worker/main.py:93-137 | when the tailed file is what the gateway published, a security event of an accepted batch that was deliverable is, once the worker has caught up, in the finding of its identity at no lower confidence, whatever the gateway and the worker went through in between |
| `EndToEnd.FindingsComeFromTheStream` | apps/api/src/aegis_api/application/findings.py:215-303 | every finding the worker then holds has a published event that was admitted to it |
| `EndToEnd.FindingsOfTheStream` | apps/worker/src/aegis_worker/main.py:93-137 | its findings are then exactly those of one fold of the published events in order, counters aside |
| `Findings.GroupingKeepsMeaning` | apps/api/src/aegis_api/application/findings.py:215-232 | folding tenant by tenant gives the same store and the same counters as folding record by record in stream order |
| `Findings.CuttingKeepsMeaning` | apps/api/src/aegis_api/operations.py:192-206 | a stream cut into two batches anywhere gives the same store and the sum of the counters |
| `Findings.EveryRecordIsCounted` | apps/api/src/aegis_api/application/findings.py:215-377 | created, updated, ignored and rejected add up to the number of records; regressions are among the updates, and every created finding has stored evidence |
| `Pipeline.GroupByTenant` | apps/api/src/aegis_api/application/findings.py:402-418 | the loop groups the records by tenant in order of first appearance and rejects those without a usable organization |
| `Pipeline.ApplyRecord` | apps/api/src/aegis_api/application/findings.py:234-377 | one record, with the cached agent contexts, changes the rows as the specification does and is refused exactly when it says so |
| `Pipeline.FoldTenantBatch` | apps/api/src/aegis_api/application/findings.py:221-231 | a tenant's records inside one transaction, contexts looked up once per agent, equal the fold that looks each one up |
| `Pipeline.ProcessRuntimeEvents.Execute` | apps/api/src/aegis_api/application/findings.py:215-232 | a batch that succeeds equals folding it in stream order, counters included, and lists one reason for each rejection up to fifty; one whose database fails in a later transaction leaves exactly the tenants before it folded |
| `Pipeline.ProcessRuntimeEvents.Replay` | apps/api/src/aegis_api/operations.py:173-206 | replaying a capture in batches of any size equals one fold of its parseable lines, unparseable ones counted as rejected |
| `Pipeline.Merge` | apps/api/src/aegis_api/operations.py:215-224 | merged counters are sums, and the reasons are the first fifty of both lists |
| `Pipeline.OneMoreLine` | apps/api/src/aegis_api/operations.py:173-206 | the records of a replay are those of its parsed lines, in order, and its bad lines are counted one each |
| `Pipeline.RecordOccurrence` | apps/api/src/aegis_api/domain/entities/findings.py:309-343 | a sighting leaves the finding and the answer the specification says, whose parts the next three rows give |
| `Pipeline.SightingKeepsPlaces` | apps/api/src/aegis_api/domain/entities/findings.py:324-327 | the environment is appended if it is named and new, the route likewise while fewer than twenty are listed, and nothing else is |
| `Pipeline.SightingCounts` | apps/api/src/aegis_api/domain/entities/findings.py:329-343 | one is added to the suppressed count for a false positive or an accepted risk and to the occurrences otherwise; a remediated finding, and no other, reopens |
| `Pipeline.SightingKeepsFinding` | apps/api/src/aegis_api/domain/entities/findings.py:320-323 | the time becomes the last sighting and, if there was none, the first; rule, title, severity, confidence, signature and would-block count stay |
| `Pipeline.BuildOrRaise` | apps/api/src/aegis_api/application/findings.py:287-317 | a known finding keeps title and severity and takes the higher of the two confidences |
| `Convergence.ReplayConverges` | apps/api/src/aegis_api/application/findings.py:287-325 | after the first p records, folding any stretch that starts no later than p leaves what one pass over the longer prefix leaves, counters aside |
| `Convergence.FoundExactlyWhenAdmitted` | apps/api/src/aegis_api/application/findings.py:287-303 | a tenant has a finding exactly when one of its records was admitted to that identity |
| `Identities.ShareARowExactlyWhen` | apps/api/src/aegis_api/application/findings.py:275-303 | two admitted records of a tenant leave one finding if application, rule, normalised signature, source kind and innermost application frame agree, and two otherwise |
| `Identities.SameIdentityExactlyWhen` | apps/api/src/aegis_api/application/findings.py:275-284 | their identities are the same exactly when those fields agree |
| `Identities.StackKeyOf` | apps/api/src/aegis_api/domain/entities/findings.py:121-124 | the key of a stack is the class, a hash sign and the method of its first application frame, and empty without one |
| `Identities.AdmittedExactlyWhen` | apps/api/src/aegis_api/application/findings.py:242-273 | a record is admitted exactly when it is a taint hit with an agent the tenant has registered, a payload and a known rule, and ignored exactly when it is no taint hit |
| `Identities.IgnoredAndRejected` | apps/api/src/aegis_api/application/findings.py:215-273 | over any stream the ignored count is that of the usable records that are no taint hits, the rejected count that of the unusable records and the taint hits that are not admitted |
| `Identities.CountedAs` | apps/api/src/aegis_api/application/findings.py:215-377 | a record adds one to created exactly when the tenant gains a finding, and one to created or updated exactly when it is admitted |
| `Identities.UpsertMarks` | apps/api/src/aegis_api/application/findings.py:318-377 | an admitted record counts as a regression exactly when it meets a remediated finding, and as stored evidence exactly when a sample was added |
| `Identities.TitleOf` | apps/api/src/aegis_api/application/findings.py:509-520 | the title names the class, without its package, and the method of the innermost application frame that has a class, cut at two hundred characters, and is the rule's own without one |
| `Identities.ConfidenceOf` | apps/api/src/aegis_api/application/findings.py:304-310 | a finding is exploited exactly when some admitted record was, and suspected exactly when all were |
| `Identities.EnvironmentsOf` | apps/api/src/aegis_api/domain/entities/findings.py:324-325 | the environments of a finding are exactly the named ones its admitted records came from |
| `Identities.RoutesOf` | apps/api/src/aegis_api/domain/entities/findings.py:326-327 | at most twenty routes are listed, each taken by an admitted record |
| `Identities.RoutesAreListed` | apps/api/src/aegis_api/domain/entities/findings.py:326-327 | while fewer than twenty are, every route an admitted record took is listed |
| `Convergence.FirstRecordFixes` | apps/api/src/aegis_api/application/findings.py:290-303 | rule, title, severity, the first four hundred characters of the signature and the first sighting are for good those of the first admitted record |
| `Convergence.ConfidenceIsTheHighest` | apps/api/src/aegis_api/application/findings.py:304-310 | the confidence is the highest any admitted record reported, whatever the order: it is never lowered |
| `Convergence.StreamCore` | apps/api/src/aegis_api/application/findings.py:234-325 | the full fold, seen without counters, triage and last sighting, is the fold of the cores |
| `Convergence.PartialCore` | apps/api/src/aegis_api/application/findings.py:220-231 | a fold that failed between transactions moved each tenant either all the way or not at all |
| `Convergence.StreamSightings` | apps/api/src/aegis_api/domain/entities/findings.py:329-333 | every admitted record adds one to the occurrences or to the suppressed occurrences of its finding |
| `Convergence.StreamBlocks` | apps/api/src/aegis_api/application/findings.py:316-317 | every admitted record of a finding that is exploited by then, from an agent that does not block, adds one to its would-block count, and no other does |
| `Convergence.StopsOverlap` | apps/api/src/aegis_api/application/findings.py:316-317 | folding a stretch again counts at least as many of them as the longer prefix adds |
| `Evidence.EvidenceIsSpacedExactlyWhen` | apps/api/src/aegis_api/application/findings.py:379-392 | stored samples are an interval apart exactly when no event met the finding suppressed, counted at most once and within an interval of its latest sample; the first event is always kept |
| `Evidence.WithoutTriageNeverUnlimited` | apps/api/src/aegis_api/application/findings.py:379-392 | without triage that condition holds of every history, so the documented rule does |
| `Evidence.SeenSamples` | apps/api/src/aegis_api/application/findings.py:379-392 | a further event is sampled exactly when its time is an interval after the latest sample or that guard lets it through |
| `Evidence.EvidenceIsBounded` | apps/api/src/aegis_api/application/findings.py:379-392 | under that condition there are between one and one plus (latest minus earliest) divided by the interval samples, in any order of times |
| `EvidenceRuns.EveryRunBoundsEvidence` | apps/api/src/aegis_api/application/findings.py:359-392 | over every run of the worker without triage, replays, failed folds and crashes included, each finding's samples are an interval apart and within that bound over the times of the file's records |
| `Evidence.SuppressedOnceStoresEverything` | apps/api/src/aegis_api/application/findings.py:383-384 | a finding suppressed after one occurrence stores a sample for every further event and stays in that state |
| `Evidence.SuppressionLiftsTheLimit` | apps/api/src/aegis_api/application/findings.py:379-392 | a concrete history of two events at the same instant that stores two samples |
| `Quota.BucketDecidesByWindows` | apps/gateway/src/aegis_gateway/domain/quota.py:29-50 | over any calls, even with a clock that goes back, a request is admitted exactly when no window ending now, back to the creation or any earlier call, would exceed capacity plus rate times its length |
| `Quota.TakeRefinesLedger` | apps/gateway/src/aegis_gateway/domain/quota.py:38-50 | one number stands for the whole admission history: a call decides by the windows and the new number stands for the longer history |
| `Quota.EveryWindowIsBounded` | apps/gateway/src/aegis_gateway/domain/quota.py:17-22 | in every run no window between two calls admits more than capacity plus rate times its length |
| `Admission.EveryRunIsMetered` | apps/gateway/src/aegis_gateway/application/ingest.py:119-134 | in every window of every run of the gateway, half a token for each security event and one for each telemetry event of a tenant that got through come to at most the capacity plus the refill of that long, whatever the batches, their answers and the other tenants |
| `Admission.EveryPassIsCounted` | apps/gateway/src/aegis_gateway/application/ingest.py:119-137 | every event a pass means to publish is on the trace that result is about |
| `Admission.FindingPassesExactlyWhen` | apps/gateway/src/aegis_gateway/application/ingest.py:119-137 | a new security event passes exactly when the refilled bucket holds half a token, and is charged it; otherwise it stops the batch with the hint for half a token |
| `Admission.TelemetryPassesExactlyWhen` | apps/gateway/src/aegis_gateway/application/ingest.py:119-137 | a new telemetry event passes exactly when the bucket is at least half full and then holds a whole token, and is charged it; otherwise it is shed and not remembered |
| `Admission.OtherLines` | apps/gateway/src/aegis_gateway/application/ingest.py:87-117 | blank lines are passed over, the line past the event limit is rejected and stops the pass, bad lines are rejected and listed while fewer than twenty are, a repeated event is acknowledged |
| `Admission.AnswerExactlyWhen` | apps/gateway/src/aegis_gateway/application/ingest.py:76-158 | which answer a batch gets, when exactly, and what an accepted one reports |
| `Admission.CreditIsTheShare` | apps/gateway/src/aegis_gateway/application/ingest.py:167-174 | the credit is the event limit times the part of the capacity that is left, rounded down, and at least one |
| `Quota.HintIsTight` | apps/gateway/src/aegis_gateway/domain/quota.py:52-62 | a non-zero hint exceeds the exact wait by more than zero and at most one second |
| `Quota.HintIsSound` | apps/gateway/src/aegis_gateway/domain/quota.py:52-62 | waiting for the hint makes the request pass exactly when the amount is at most the capacity |
| `Quota.HintRoundsUpExactlyWhen` | apps/gateway/src/aegis_gateway/domain/quota.py:53-62 | the hint is the wait rounded up, as documented, exactly when the wait is not a whole number of seconds |
| `Quota.WholeWaitGetsASecondMore` | apps/gateway/src/aegis_gateway/domain/quota.py:61-62 | a concrete wait of one second answered with two |
| `Quota.HintWithoutRefill` | apps/gateway/src/aegis_gateway/domain/quota.py:52-62 | no wait for an amount that is there, and an hour for one that is not when the bucket never refills |
| `Quota.RefillSplits` | apps/gateway/src/aegis_gateway/domain/quota.py:38-42 | any split of a refill interval gives the tokens of one refill |
| `Ingest.OnlyTelemetryIsShed` | apps/gateway/src/aegis_gateway/application/ingest.py:119-134 | each line that raises the count of shed events is a telemetry event |
| `Quota.TelemetryLeavesReserve` | apps/gateway/src/aegis_gateway/application/ingest.py:119-134 | admitting telemetry never leaves less than half the capacity minus one token |
| `Quota.SecurityReserve` | apps/gateway/src/aegis_gateway/domain/quota.py:75-89 | on one bucket, after any telemetry-only history, capacity minus two security events pass without a quota error |
| `Reserve.FindingsAlwaysPass` | apps/gateway/src/aegis_gateway/application/ingest.py:119-134 | over whole runs of the gateway: after any run in which a tenant sent telemetry only, whatever the others send, its next capacity minus two security events are never answered with a quota error, however they are cut into batches |
| `Quota.TokenBucket.TryConsume` | apps/gateway/src/aegis_gateway/domain/quota.py:44-50 | admits exactly when the windows of its recorded history allow it, and records what it admitted |
| `Quota.TokenBucket.RetryAfterSeconds` | apps/gateway/src/aegis_gateway/domain/quota.py:52-62 | answers the hint, and refills without consuming |
| `Ingest.EveryRunAccounts` | apps/gateway/src/aegis_gateway/application/ingest.py:112-155 | over any run, sinks that fail part-way included, every remembered id belongs to exactly one event of one sender, either published once or given up on, and nothing else is published |
| `Ingest.LostExactlyWhenAborted` | apps/gateway/src/aegis_gateway/application/ingest.py:126-152 | a batch aborted by quota, strict mode or the sink gives up exactly on its sender's events that it was the first to remember and the sink had not taken; no other answer gives up on anything |
| `Ingest.CallParts` | apps/gateway/src/aegis_gateway/infrastructure/sinks.py:149-157 | a call parts the new ids between the stream, which gets the first of them, and those given up on; they were not remembered before and are from then on |
| `Ingest.LostForever` | apps/gateway/src/aegis_gateway/application/ingest.py:112-137 | an event given up on is published in no continuation of the run |
| `Ingest.CleanRunsLoseNothing` | apps/gateway/src/aegis_gateway/application/ingest.py:126-152 | over a run without an aborted batch nothing is given up on |
| `Ingest.DuplicateIsPublishedExactlyWhen` | apps/gateway/src/aegis_gateway/application/ingest.py:112-117 | in an accepted batch the sender's event answered as a duplicate is on the stream after the call exactly when before it its id was new to the gateway or this sender's own event was there already |
| `Ingest.UndeliverableExactlyWhen` | apps/gateway/src/aegis_gateway/application/ingest.py:112-117 | that condition fails exactly when the sender's own event was given up on or the id is remembered for another sender's event |
| `Ingest.AckIsPublishedExactlyWhen` | apps/gateway/src/aegis_gateway/application/ingest.py:112-117 | the acknowledged id names an event of the sender on the stream exactly under the same condition, and always after an acceptance |
| `Ingest.SecurityIsPublishedExactlyWhen` | apps/gateway/src/aegis_gateway/application/ingest.py:122-155 | a security event of an accepted batch within the limit is on the stream as its sender's exactly when before the call its id was new to the gateway or this sender's own event was there already |
| `Ingest.RetryDeliversExactlyWhen` | apps/gateway/src/aegis_gateway/application/ingest.py:126-152 | after an aborted batch and its retry, a security event is on the stream exactly when it was deliverable before and is not among those the aborted batch gave up on |
| `IngestCases.AnotherTenantsIdSwallowsAFinding` | apps/gateway/src/aegis_gateway/container.py:74-84 | a concrete run: one tenant publishes an event, another tenant's finding with the same id is accepted as a duplicate and never reaches the stream |
| `IngestCases.RetryAfterSinkDownLosesAFinding` | apps/gateway/src/aegis_gateway/application/ingest.py:143-155 | a concrete run: the sink is down, the agent retries, the finding is acknowledged as a duplicate and is not on the stream |
| `IngestCases.SinkFailsHalfWay` | apps/gateway/src/aegis_gateway/infrastructure/sinks.py:149-157 | a concrete batch of two findings whose sink fails on the second: the first is on the stream, the second is given up on, and a retry changes neither |
| `IngestCases.TwentyFirstRejection` | apps/gateway/src/aegis_gateway/application/ingest.py:92-99 | a concrete batch whose answer lists twenty-one rejections |
| `Ingest.ReportAccountsForEveryLine` | apps/gateway/src/aegis_gateway/application/ingest.py:80-174 | accepted, duplicate, shed and rejected add up to the non-blank lines looked at; the rejections listed are the first twenty refused lines with their numbers and reasons, then the line over the batch limit; the credit is between 1 and the batch limit |
| `Ingest.IngestEvents.Execute` | apps/gateway/src/aegis_gateway/application/ingest.py:76-158 | the use case answers, and changes the dedup cache, the buckets and the stream of events stamped with their sender, as the specification these results are about |
| `Ingest.IngestEvents.Publish` | apps/gateway/src/aegis_gateway/infrastructure/sinks.py:144-157 | the sink sends event by event and raises on the first it cannot, leaving those before it on the stream |
| `Ingest.IngestEvents.ScanLines` | apps/gateway/src/aegis_gateway/application/ingest.py:87-137 | the loop over the body equals the specification's pass over all its lines, stops included |
| `CefText.FiveReplacesAreOnePass` | apps/api/src/aegis_api/application/siem.py:154-168 | the five chained replaces equal one left-to-right pass that looks ahead only after a carriage return |
| `CefText.CefValueSafe` | apps/api/src/aegis_api/application/siem.py:154-168 | an escaped value has no line break and no bare equals sign, is at most twice as long, and unescapes to the input with every line ending read as a line feed |
| `CefText.CefHeaderSafe` | apps/api/src/aegis_api/application/siem.py:145-151 | an escaped header field has no bare pipe, unescapes to the input, and has a line break exactly when the input has one |
| `CefLine.ExtensionRoundTrip` | apps/api/src/aegis_api/application/siem.py:230-231 | a reader that splits at bare equals signs and takes the last word as the key recovers every key and value in order |
| `CefLine.LineRoundTrip` | apps/api/src/aegis_api/application/siem.py:181-231 | splitting at the first seven bare pipes and reading the extension recovers every header field and every pair, for arbitrary text |
| `CefFields.ReaderLearns` | apps/api/src/aegis_api/application/siem.py:173-231 | a reader of the printed line finds the product, rule, title and rounded severity in the header, and a value under a key exactly when the finding or occurrence has it there, key by key, line breaks normalised |
| `CefFields.DecimalDenotes` | apps/api/src/aegis_api/application/siem.py:173-231 | a printed number is the digits that stand for it, without leading zeros, after a minus if it is negative |
| `CefFields.TruncatedIsPrefix` | apps/api/src/aegis_api/application/siem.py:224-228 | a long sink argument is cut to its first characters, as many as the limit allows |
| `CefFields.RoundsToNearest` | apps/api/src/aegis_api/application/siem.py:183 | the severity is the integer nearest the score, of two equally near the even one |
| `CefLine.ToCef` | apps/api/src/aegis_api/application/siem.py:173-231 | the printed line reads back to the finding's header fields and extension pairs, values up to newline normalisation |
| `CefLine.OneLineExactly` | apps/api/src/aegis_api/application/siem.py:180-191 | the output is one line exactly when the version, the rule key and the title have no line break |
| `CefLine.TitleCanBreakTheLine` | apps/api/src/aegis_api/application/siem.py:145-151 | a concrete title that splits the output over two lines |
| `Uuid7.UnpackPack` | apps/api/src/aegis_api/domain/value_objects.py:53-61 | timestamp, version, counter, variant and random bits can be read back from the 128-bit value (section 5.7 of RFC 9562) |
| `Uuid7.Layout` | apps/api/src/aegis_api/domain/value_objects.py:52-60 | from the top of 128 bits stand the low 48 bits of the millisecond, the version 7, the low 12 bits of the counter, the variant 2 and the low 62 random bits |
| `Uuid7.IncreasesExactlyWhen` | apps/api/src/aegis_api/domain/value_objects.py:41-61 | the next id is larger, whatever the random bits, exactly when the clock has not fallen behind the last millisecond used |
| `Uuid7.RunIncreases` | apps/api/src/aegis_api/domain/value_objects.py:41-61 | over any run whose clock never goes back and whose counter never wraps, ids strictly increase (section 6.2 of RFC 9562) |
| `Uuid7.WrapBreaksTheOrder` | apps/api/src/aegis_api/domain/value_objects.py:44-51 | after a wrap the borrowed millisecond is dropped by the next call in the old millisecond, and the id gets smaller |
| `Uuid7.WrapIsReachable` | apps/api/src/aegis_api/domain/value_objects.py:42-51 | a concrete run from the generator's first state that wraps and then hands out a smaller id |
| `Uuid7.Generator.NewId` | apps/api/src/aegis_api/domain/value_objects.py:27-61 | in a new millisecond takes the clock and the random start, in the same one counts up and past 4095 borrows the next millisecond; the id decodes to what it keeps |
| `Broadcast.Broadcaster.Publish` | apps/api/src/aegis_api/application/stream.py:29-41 | the event joins its tenant's history and no other's; exactly that tenant's readers get it, each keeping the newest hundred; every live queue stays a gapless suffix of its tenant's history since it subscribed, and no tenant keeps an empty set |
| `Broadcast.Broadcaster.Subscribe` | apps/api/src/aegis_api/application/stream.py:17-21 | a new empty queue joins its tenant's readers, and no other's, and follows the history from here on |
| `Broadcast.Broadcaster.Unsubscribe` | apps/api/src/aegis_api/application/stream.py:23-27 | the queue leaves, and a tenant without readers is dropped |
| `Broadcast.Broadcaster.Consume` | apps/api/src/aegis_api/application/stream.py:17-21 | a reader takes the oldest event it has, and every queue keeps its suffix |
| `Broadcast.Queue.Deliver` | apps/api/src/aegis_api/application/stream.py:32-41 | a queue of a hundred drops its oldest event and no other does, the event is appended, and the second put never overflows |
| `Broadcast.BoundedSuffix` | apps/api/src/aegis_api/application/stream.py:33-41 | dropping the oldest keeps a gapless suffix of the published events |
| `Sessions.FamiliesAreChains` | apps/api/src/aegis_api/application/auth.py:592-661 | in every reachable state each family is one chain of sessions from its sign-in, each replaced by the next, and only the last is not rotated |
| `Sessions.FamilyFacts` | apps/api/src/aegis_api/domain/entities/access.py:240-268 | two sessions of a family share expiry, user and organization, are the same one if both are unrotated, and never share a successor |
| `SessionRules.FamilyExpiresWithItsSignIn` | apps/api/src/aegis_api/domain/entities/access.py:214-247 | in every reachable state the sign-in of each family is still there and every session of the family expires the time to live after it, however often it was refreshed |
| `SessionRules.NoRotationAfterTheTimeToLive` | apps/api/src/aegis_api/domain/entities/access.py:240-262 | no refresh token is handed out for a family once the time to live has passed since its sign-in |
| `Sessions.NoTokenRotatesTwice` | apps/api/src/aegis_api/application/auth.py:604-643 | once a token has been exchanged, no later presentation of it yields a refresh token, inside or outside the grace window |
| `Sessions.ReuseIsTerminal` | apps/api/src/aegis_api/application/auth.py:597-612 | from a detected reuse on, in every continuation the family gains no session, none of its tokens is exchanged or reissued, and no access token bound to any of its sessions resolves |
| `Sessions.ReuseKillsExactlyWhen` | apps/api/src/aegis_api/application/auth.py:601-612 | presenting a rotated token leaves its whole family revoked exactly when its own row is not revoked and more than the grace period has passed since its rotation, or the family was already revoked |
| `SessionRules.RotatedToken` | apps/api/src/aegis_api/application/auth.py:601-612 | a rotated token whose row is not revoked is answered as reuse, every session of its family then revoked and nothing else changed, exactly when more than the grace period has passed since its rotation; otherwise nothing changes, and it is worth an access token of the successor exactly when the user is active and the membership holds |
| `SessionRules.LiveToken` | apps/api/src/aegis_api/application/auth.py:614-661 | a live token is expired, refused or rotated exactly when expiry, user, lock and membership say so; a missing membership revokes the family, and a rotation adds the successor, marks its predecessor and leaves every other row alone |
| `SessionRules.UnknownOrRevoked` | apps/api/src/aegis_api/application/auth.py:592-599 | an unknown token is answered as such, a revoked one as reuse, and neither changes anything |
| `Sessions.ReplayAfterPasswordChangeSpares` | apps/api/src/aegis_api/application/auth.py:805-810 | a concrete run: sign-in, refresh, password change, replay of the first token; the answer is reuse and the surviving session still resolves |
| `Sessions.EveryRunStaysUnderCap` | apps/api/src/aegis_api/application/auth.py:175-188 | in every run whose clock does not go back a user has at most max(1, cap) active sessions |
| `SessionRules.LiveStaysUnderCap` | apps/api/src/aegis_api/application/auth.py:175-188 | the same, the sessions counted being those of the user neither revoked nor rotated nor expired |
| `SessionRules.SignInEvictsNoMore` | apps/api/src/aegis_api/application/auth.py:175-188 | a sign-in adds its session and keeps as many of the others as there were, or one less than the cap if that is fewer |
| `Sessions.EvictionTakesTheOldest` | apps/api/src/aegis_api/application/auth.py:185-188 | no evicted session is newer than an active one that stays |
| `Sessions.Authentication.Refresh` | apps/api/src/aegis_api/application/auth.py:592-661 | every branch of the refresh changes the table and answers as specified |
| `Sessions.Authentication.EnforceSessionCap` | apps/api/src/aegis_api/application/auth.py:175-188 | the loop revokes exactly the overflow of the active sessions, in whatever order they were listed |
| `Sessions.Authentication.Issue` | apps/api/src/aegis_api/application/auth.py:132-173 | eviction, then one new family whose session expires the time to live from now, in one transaction |
| `Sessions.Authentication.Resolve` | apps/api/src/aegis_api/application/auth.py:867-893 | an access token resolves exactly when user, session, organization and membership allow it |
| `Sessions.Authentication.SignOut` | apps/api/src/aegis_api/application/auth.py:737-755 | revokes all the user's sessions, or the family of the current one |
| `Sessions.Authentication.RevokeFamilyRows` | apps/api/src/aegis_api/infrastructure/db/repositories.py:237-249 | revokes what is not yet revoked in the family, counts exactly those rows, and touches nothing else |
| `Sessions.Authentication.RevokeUserRows` | apps/api/src/aegis_api/infrastructure/db/repositories.py:251-262 | revokes what is not yet revoked of the user, apart from the session named, and touches nothing else |
| `Sessions.Authentication.PurgeExpired` | apps/api/src/aegis_api/operations.py:133-149 | drops exactly the sessions that expired more than a day ago |
| `Rbac.NoAmplification` | apps/api/src/aegis_api/application/rbac.py:213-262 | over any run in which only a group, those it invites and the keys it mints act, with principals resolved at any earlier point of the run, none of them ever holds a permission outside what the group started with |
| `Rbac.StepStaysWithin` | apps/api/src/aegis_api/application/context.py:135-141 | each single role edit, assignment, invitation or key made with permissions within a bound keeps the group within it |
| `Authority.MayUseExactlyWhen` | apps/api/src/aegis_api/domain/entities/access.py:136-143 | a permission may be used exactly by an active member one of whose roles grants it, or by a key that carries it |
| `Authority.DeniedExactlyWhen` | apps/api/src/aegis_api/application/rbac.py:155-420 | an action is denied exactly when its actor lacks the permission for it: role writing for roles and assignments, inviting for invitations, removing for removals, settings for keys |
| `Authority.RoleActionsDoneExactlyWhen` | apps/api/src/aegis_api/application/rbac.py:317-420 | a role is created, changed or deleted exactly when the actor may, holds all it grants, none is reserved to owners, the name is free, it is no built-in role and, to delete it, nobody holds it |
| `Authority.MemberActionsDoneExactlyWhen` | apps/api/src/aegis_api/application/rbac.py:155-296 | an invitation is done exactly when its roles could be granted and the user is no member; a removal or reassignment exactly when, besides, it is not of oneself (a removal) and another owner is left if an owner goes |
| `Authority.ResolvedExactlyWhen` | apps/api/src/aegis_api/application/rbac.py:212-225 | roles can be given exactly when there is one, all exist, and none grants what the actor lacks |
| `Authority.KeyActionsDoneExactlyWhen` | apps/api/src/aegis_api/application/api_keys.py:68-122 | a key is made exactly for a non-empty set of permissions the actor holds, by one who may |
| `Rbac.AlwaysAnOwner` | apps/api/src/aegis_api/application/rbac.py:244-247 | over any run an organization that had a member with the Owner role keeps one |
| `Rbac.RemovalLosesActiveOwnersExactlyWhen` | apps/api/src/aegis_api/application/rbac.py:279-284 | a permitted removal leaves no active owner exactly when the removed member was the only active one |
| `Rbac.DemotionLosesActiveOwnersExactlyWhen` | apps/api/src/aegis_api/application/rbac.py:244-249 | a permitted reassignment leaves no active owner exactly when the member was the only active one and gets no Owner role |
| `Rbac.LastActiveOwnerCanLeave` | apps/api/src/aegis_api/infrastructure/db/repositories.py:395-412 | a concrete run: an owner invites an owner and steps down before the invitation is accepted, leaving no active owner |
| `Rbac.OnlyOwnersDelete` | apps/api/src/aegis_api/domain/entities/access.py:80-87 | over any run no custom role carries the owner-only permission, so a member that holds it is an owner |
| `Rbac.OwnersAppointOwners` | apps/api/src/aegis_api/application/rbac.py:221-225 | a member becomes an owner only through an assignment or invitation by an actor that holds everything the Owner role carries |
| `Rbac.AccessControl.ResolveRoles` | apps/api/src/aegis_api/application/rbac.py:212-225 | the loop answers as specified: no role, an unknown role, an escalation, or fine |
| `Rbac.AccessControl.AssignRoles` | apps/api/src/aegis_api/application/rbac.py:232-262 | each check in the order of the source, with the owner count from before the change |
| `Rbac.AccessControl.UpdateRole` | apps/api/src/aegis_api/application/rbac.py:354-389 | each check in the order of the source; the role changes as requested or not at all |
| `Rbac.AccessControl.CreateRole` | apps/api/src/aegis_api/application/rbac.py:317-347 | a custom role with permissions the actor holds and none reserved to owners, or nothing |
| `Rbac.AccessControl.DeleteRole` | apps/api/src/aegis_api/application/rbac.py:396-420 | removes a custom role nobody holds, or nothing |
| `Rbac.AccessControl.Invite` | apps/api/src/aegis_api/application/rbac.py:167-210 | a new invited membership with roles the actor could grant, or nothing |
| `Rbac.AccessControl.RemoveMember` | apps/api/src/aegis_api/application/rbac.py:270-296 | removes another member that is not the only owner, or nothing |
| `Rbac.AccessControl.CreateKey` | apps/api/src/aegis_api/application/api_keys.py:68-122 | a key with permissions the actor holds, or nothing |
| `Rbac.ParsePermissions` | apps/api/src/aegis_api/application/rbac.py:54-70 | succeeds exactly when every submitted value is known, with exactly their permissions, and otherwise reports exactly the unknown ones |

## Left out

- Worker.EveryRunConverges: says nothing about the last sighting and the triage status, which a replay can move, nor about the order of stored evidence; the counters of sightings and of would-be blocks are only bounded from below, because replays do count twice.
- Worker.EveryRunDelivers: a line that does not parse is dropped by the source and is not part of the claim.
- Findings.GroupingKeepsMeaning: the texts of the rejection reasons can come in another order when records are grouped; counters and stores are the same.
- Ingest.EveryRunAccounts: the cache never evicts; the eviction of the least recently used id or bucket is not modelled. Of what the sink stamps, organization and agent are kept; the environment and the payload are not.
- Reserve.FindingsAlwaysPass: over real numbers; floating-point rounding is not modelled.
- Sessions.EveryRunStaysUnderCap: with a cap of zero one session remains, hence max(1, cap); the configuration asks for at least one.
- Sessions.ReuseIsTerminal: an access token without a session claim is not modelled; the issuer always sets one.
- A file sink cut off inside a line, and a Kafka client that sends an event twice on its own.
- The Kafka source, the truncation or rotation of the tailed file, and a cursor edited to a number inside a line.
- UTF-8 decoding, JSON parsing and the field readers (`_severity`, `_confidence`, `_frames`, `_ranges`, `_observed_at`): records arrive as typed values; records whose shape makes a reader raise something else are not covered.
- The risk score, which is recomputed from the modelled fields, and the validation of a title or role name in an entity constructor.
- Broadcasts made by a transaction that is rolled back afterwards.
- Organization licences at an invitation, the audit trail, password and MFA checks before a sign-in, deletion of users.
- HTTP, database schema and row-level security, configuration, logging, dashboards, agents, AI features and cryptography.
