# A verified model of the ingestion backend

The backend accepts uploads, turns each into a job, and lets workers download, transcribe,
split, embed and summarise it, so that tenants can search the result. This project models the
parts of it whose correctness is not visible in one place and proves what they are for.

* **The job system** (`Tables`, `Pipeline`, `JobInvariants`, `JobSystem` and the `Job…` files).
  The tables, any number of workers, clients and a clock; every SQL statement or transaction is
  one atomic step, which takes effect or fails without a trace. A run is any sequence of steps,
  so a theorem about runs is about every interleaving. `UpdateJobStatus` has no guard on the old
  status, so all safety rests on the order of the worker's statements and on an invariant over
  all rows and all workers (`JobProofs`, `JobInductive`). When job and video rows agree, and when
  an attempt is sure to succeed, is proved as an if-and-only-if (`JobAgreement`, `JobOutcomes`,
  `JobAttempts`, `JobFailures`). What each row records after every action is written down
  independently of the statements and proved of them (`JobRecords`, `JobVideos`, `JobContents`,
  `JobOrigins`, `Statements`), and what goes in is proved to be just what the declared keys and references let
  in (`Schema`).
* **The same system as code** (`Store`, `JobHandlers`, `Script`, `Processor`, `Retention`). The
  tables as an object updated in place, the request handlers with rollback, and the worker's
  program statement by statement, with arbitrary foreign activity between any two statements.
  What others do, which connections hold, which services work, ids, times and answers are inputs,
  a script fixed beforehand. Given the script, the final tables, the statements given and the end
  of the worker are proved to be those of the state machine. Every life of a worker in the running
  system is such a script, and a pass over an embedder with a suitable service plays it with the
  same tables after every turn (`JobScripts`). A transaction is exactly its specification or
  leaves every table unchanged.
* **Waking and draining** (`Wake`, `WorkerLoops`). The bounded channel of wake-ups, the claim in
  two steps with rows that other claims skip, shutdown, and the loops of workers, ticker and
  listener, each of which takes exactly the actions that its script lays down.
* **The token bucket** (`RateLimit`), proved to be the arrival-curve limiter it stands for.
* **The circuit breaker** (`CircuitBreaker`) under concurrent calls, late results and
  cancellations.
* **The text algorithms**: the sentence splitter and its overlapping windows (`Chunker`), the
  section splitter and the map-reduce calls of the summariser (`Summarizer`).
* **Loops that refine a simple form**: two layers of embedding batches (`Embedding`), two HTTP
  retry loops and the reconnect delays (`HttpRetry`, `Backoff`).

Identifiers are natural numbers, times are integers, tokens are reals, texts are code points in
the chunker and bytes in the summariser. What comes from outside (storage, transcription,
embedding, language model, network, clock, connection failures) is a parameter or an arbitrary
choice, so the theorems hold for all of its behaviours.

## What the code does not give

* Job and video rows need not agree. `fail` writes the job row first and the video row second; if
  a retry comes in between, the late second write hits the new attempt's video
  (`RetryRaceDisagrees` gives a run from every state in which this can begin, `RaceHappens` one
  from an empty database). A worker that dies between the two completions leaves a completed job
  without a completed video (`DeathDisagrees`), and so do a lost completion of the video and two
  lost writes of `fail` (`LostWritesDisagree`). The predicate `Breaks` lists the events: the death
  of the last worker that could still complete the video of its completed job, take that completion
  back, or fail the video of its failed job; the loss of that worker's last write; and a late write
  of `fail` on the video of a completed job. The list is exact: an action keeps the agreement of a
  final job if and only if it is none of these (`AgreementExactly`), and in every run the rows of a
  job agree if and only if none of them happened since the job was last pending or processing
  (`RowsMatchExactlyWhen`). In particular the rows match in every run in which the writes of `fail`
  succeed, no retry comes between them and no worker dies between two writes that belong together
  (`QuietFailures`). `DisagreementsHappen` reaches disagreeing rows from an empty database, by a
  death and by lost writes.
* An attempt that comes to its end has completed its video, whatever earlier attempts left behind,
  if and only if no worker stood at the second write of `fail` for the job when it began
  (`AttemptIsSoundExactlyWhen`); under that condition two attempts leave the same rows
  (`RetriesAreIdempotent`).
* A claim takes only pending jobs and a retry only failed ones, so a job that its worker leaves in
  processing, by dying, by failing to load it or by losing the first write of `fail`, stays there
  (`LostForever`); every other job can still be completed (`CanCompleteExactlyWhen`).
* The notify trigger fires on insert only. A retried job is claimed without a further wake-up if
  and only if a wake-up is in the buffer or a worker will claim again when the job arrives
  (`PickedUpExactlyWhenAwake`).
* A cancelled half-open probe never returns its slot. `WedgedForever` and `WedgedExample` show a
  breaker that refuses every call from then on, and `CanRecoverExactlyWhen` says exactly when some
  call can still get in; `LetInExactlyWhen` says when the next one does.
  `open` leaves `failures` as it is, although its comment speaks of resetting counters.
* The comment at the final call of the summariser says that it stays within the budget; the
  joined text is not bounded by the code, so no such bound is stated.
* The attempt bound of the HTTP client is max(0, maxRetries) + 1: a negative setting still makes
  one attempt.
* The comment at `NewTokenBucket` asks for positive settings; the code does not check them, and
  the theorem does not need them.

## Model

| member | source | states |
|---|---|---|
| JobTheorems.OneRunPerJob | internal/worker/processor.go:75-153 | in every reachable state a job is inside at most one worker's run, and a pending or failed job inside none |
| JobTheorems.OneVideoPerJob | migrations/001_init.sql:116-128 | a job has at most one video, which carries its tenant, title, kind and file key; no two videos share a job or a file key |
| JobTheorems.RunsAreNeverRefused | internal/worker/processor.go:95-113 | in every interleaving the video insert meets neither unique column, and with fresh ids and answering services no statement of the run is refused |
| JobTheorems.CompletedIsIngested | internal/worker/processor.go:119-148 | a completed video has its transcript, exactly its sections as chunks 0 to n-1, its job's segments, and a completed job |
| JobTheorems.SearchIsWhole | internal/database/queries/chunks.sql:26-49 | a search hit is section i of the stored transcript of a completed job, and exactly the sections of that transcript are hits with it |
| JobVideos.SearchFindsExactly | internal/database/queries/chunks.sql:26-49 | in every reachable state a search finds exactly the sections of the transcripts of completed videos that are not deleted, for their own tenant, with a segment name only where a segment of the job bears it up to case |
| JobOrigins.FoundByRequestedNames | internal/database/queries/chunks.sql:26-49 | in every continuation of a request, a completed undeleted video of its job is found under exactly the requested names up to case, by its tenant and nobody else, section by section |
| JobVideos.DeletedIsNeverFound | internal/database/queries/chunks.sql:36-41 | after a tenant has deleted a video no search of anybody finds it in any continuation: ever when it was completed, and otherwise unless its identifier is drawn for a new video |
| JobVideos.MarkedByDeletion | internal/database/queries/videos.sql:91-108 | in every run only a deletion by its tenant marks a video, with the time of that deletion |
| JobVideos.VideosRecordedExactly | internal/database/queries/videos.sql:1-137 | after every action each video row is what was there with what was done to it: inserted with the columns of its job, removed, completed, failed or marked |
| JobContents.ContentRecordedExactly | internal/worker/processor.go:119-322 | after every statement of a worker the transcript, chunks, summary and segments of each video are what was there and what the worker was given |
| JobContents.ClientsKeepContent | internal/httpapi/handlers/job.go:36-255 | nobody but workers touches the content of a video |
| JobTheorems.CompletedForever | internal/worker/processor.go:90-148 | nothing that happens later changes transcript, chunks or segments of a completed video or takes back its job's completion |
| JobAgreement.AgreementExactly | internal/worker/processor.go:142-148 | after any action from any state of the invariant the rows of a job agree, or a worker is about to make them, exactly when the job is not final, or they did before and the action is not one of those that break it |
| JobAgreement.AgreedExactlyWhen | internal/worker/processor.go:333-342 | in every run from an empty database the rows of a job agree exactly when nothing broke them since it was last pending or processing |
| JobOutcomes.RowsMatchExactlyWhen | internal/worker/processor.go:81-86 | a job without a worker has one completed video when completed, and none or a failed one when failed, exactly when nothing broke the agreement |
| JobFailures.QuietFailures | internal/worker/processor.go:333-342 | in a run in which no write of fail is lost, no retry comes between its two writes and no worker dies between two writes that belong together, a job without a worker has one completed video when completed, and none or a failed one when failed |
| JobFailures.MildKeeps | internal/worker/processor.go:334-342 | under such actions a job stays failed as long as a worker stands between the two writes of fail for it |
| JobOutcomes.DeathDisagrees | internal/worker/processor.go:142-148 | in every reachable state, the death of a worker between the two completions leaves a completed job without a completed video |
| JobExamples.DisagreementsHappen | internal/worker/processor.go:142-148 | from an empty database, a death and three lost writes each lead to a completed job without a completed video that nobody works on |
| JobOutcomes.LostWritesDisagree | internal/worker/processor.go:142-148 | when the completion of the video and both writes of fail are lost, the job stays completed without a completed video |
| JobOutcomes.RetryRaceDisagrees | internal/worker/processor.go:333-342 | from every state between the two writes of fail with a free worker, a run leads to a completed job whose video is failed |
| JobOutcomes.StaleFailure | internal/database/queries/videos.sql:115-119 | the late second write of a failed attempt fails the video of a later, completed attempt |
| JobAttempts.AttemptIsSoundExactlyWhen | internal/worker/processor.go:333-342 | an attempt is sure to end with a completed video, in every continuation, exactly when no worker stands at the second write of fail for its job |
| JobResults.FinishedAttempt | internal/worker/processor.go:90-152 | after any history of attempts, none of which still stands at its last write, a run that ends leaves one completed video with exactly the rows of this attempt |
| JobResults.RetriesAreIdempotent | internal/worker/processor.go:90-97 | two attempts at the same request with the same outside answers leave the same rows, status and deletion mark included, whatever preceded either, up to ids and times |
| JobHistory.TimesAndClaims | internal/database/queries/jobs.sql:103-185 | finished_at is set exactly while final, started_at unset exactly while pending, claims are retry_count + 1, one less while pending |
| JobHistory.FinalWithoutBreak | internal/database/queries/jobs.sql:103-156 | a final job was final at every moment after its finishing time |
| JobHistory.RetentionIsOld | internal/database/queries/jobs.sql:187-192 | a job listed for retention was final without a break for the retention age |
| JobRecords.RecordedExactly | internal/database/queries/jobs.sql:103-185 | after every action each job row is what was there with what was done to it: claimed, retried, staged, completed, or failed in the stage shown with its message |
| JobRecords.RunTold | internal/worker/processor.go:325-342 | in every run an error is recorded exactly while a job is failed, and every worker knows the stage its job shows |
| JobRecords.StartedAtLatestClaim | internal/database/queries/jobs.sql:108-108 | in every run, while a job is not pending its start time is the time of its latest claim |
| JobRecords.StartStays | internal/database/queries/jobs.sql:158-170 | from a claim on, the start time is the time of the claim in every continuation without a retry of the job |
| JobRecords.FinishedAtLatestEnd | internal/database/queries/jobs.sql:109-112 | in every run, while a job is final its finish time is the time of its latest completion or failure |
| JobRecords.RetentionListsExactly | internal/database/queries/jobs.sql:187-192 | in every run the listing names exactly the final jobs whose latest completion or failure is at least the age ago |
| JobRequests.IntentsAndJobs | internal/database/queries/upload_intents.sql:38-53 | an intent is consumed exactly when a job references it; then it is one job of its tenant, file key and kind; intents and file keys are unique among jobs |
| JobRequests.CreateSucceedsExactlyWhen | internal/httpapi/handlers/job.go:51-152 | with fresh ids a request succeeds exactly when its intent is there, issued, unexpired and of an accepted type; no constraint ever refuses it |
| JobOrigins.WhyRefused | internal/httpapi/handlers/job.go:51-79 | with fresh ids each refusal comes exactly for its reason: no intent, a consumed one, one expired by now, one of a type that is none of the five accepted |
| JobOrigins.RequestStays | internal/httpapi/handlers/job.go:96-113 | after a successful request the job has the requested title, tenant and file key, the time of the request and the kind of the uploaded type in every continuation, and so have its videos |
| JobOrigins.IntentsRecordedExactly | internal/database/queries/upload_intents.sql:1-53 | after every action each intent is what was there with what was done to it: announced with an accepted type, or consumed now by the request that adds its job |
| JobOrigins.SegmentsAreAsRequested | internal/httpapi/handlers/job.go:81-94 | a request creates segments for its tenant under no other names than those it asks for, letter for letter |
| JobRequests.CopyCreatesNoSegment | internal/worker/processor.go:221-235 | copying a job's segments by name creates no segment |
| JobRequests.CopiedSegments | internal/worker/processor.go:221-235 | past the copy the video has exactly the segments of the job |
| JobRequests.SegmentsOfNewJob | internal/httpapi/handlers/job.go:81-123 | a new job has as many segments as case-distinct names, each bears a requested name up to case, each requested name is borne, and that stays so in every run |
| JobIntake.InsertNeverConflicts | internal/httpapi/handlers/job.go:96-113 | consuming an issued intent, the job insert meets neither unique column of jobs |
| JobIntake.CreatedJob | internal/httpapi/handlers/job.go:51-123 | a successful request consumed one issued, unexpired intent of the tenant and added one job with its segments and nothing else; `RequestStays` says what the row bears |
| JobIntake.CaseDistinctCount | internal/database/queries/segments.sql:26-37 | ensuring names yields as many segments as names that differ by more than case |
| JobSteps.EnsureFindsOwn | internal/worker/processor.go:227-233 | ensuring a listed name finds the job's own segment of that name |
| JobSteps.InsideStep | internal/worker/processor.go:93-153 | every statement of a run keeps all facts about its own job and worker and touches no row of another job |
| JobSteps.NoStatementIsSkipped | internal/worker/processor.go:93-153 | a statement that succeeds leads to the very next one, with one turn for each name, and a run ends only at its last statement, after failing, or when the job cannot be loaded |
| JobSteps.ListingIsSorted | internal/database/queries/segments.sql:59-65 | the listed names are in the order of their collation, one for each segment |
| JobProofs.CoreKept | internal/worker/processor.go:75-342 | every action of any worker or client keeps the invariant over rows and workers |
| JobInductive.ReachableInv | internal/worker/processor.go:75-342 | the invariant over rows and workers, with claims counted, holds in every reachable state |
| JobProgress.RunsThrough | internal/worker/processor.go:93-153 | from every reachable interleaving a worker that has not failed can be taken to the end of its program |
| JobExamples.PendingJobCanComplete | internal/worker/worker.go:310-336 | from every reachable state a free worker can complete any pending job, which then has one video, completed unless a worker stands at the second write of fail for it |
| JobFailures.LostForever | internal/database/queries/jobs.sql:131-170 | a job left in processing with no worker inside its run stays so in every continuation |
| JobExamples.CanCompleteExactlyWhen | internal/worker/processor.go:75-88 | in every reachable state with a worker, a job can still be completed exactly when it is not left in processing with no worker inside its run |
| JobExamples.RaceHappens | internal/worker/processor.go:333-342 | from an empty database two workers suffice to reach a completed job whose only video is failed |
| Processor.Pass.ProcessJob | internal/worker/processor.go:75-88 | in every environment the tables, the statements given, the turns taken and the idle worker are those of the script from the first statement to the last; the log only grows; the document is embedded at most once |
| Processor.Pass.Run | internal/worker/processor.go:93-153 | exactly the turns of the script from cleanup to summary, ending idle or at the point where the job is to be failed |
| Processor.Pass.CopyJobSegments | internal/worker/processor.go:221-235 | exactly the turns that list the names, ensure each in order and attach the ids found in one transaction |
| Processor.Pass.ExtractTranscript | internal/worker/processor.go:157-218 | exactly the turns that stage, download, stage by kind, recognise and store; a failing service or statement leads to the failing point without the rest |
| Processor.Pass.InsertSections | internal/worker/processor.go:119-139 | exactly the turns that stage and insert, with the vectors of the embedder; it is asked for the planned requests up to the first that is not good |
| Processor.Pass.GenerateSummary | internal/worker/processor.go:277-322 | exactly the turn of the summary; the worker is idle whatever happens; `SummaryIsRecorded` says what the turn records |
| Script.SummaryIsRecorded | internal/worker/processor.go:281-313 | that turn records a completed summary exactly when one of two tries succeeds, with the text of the first that does, the language of the transcript and the model, and otherwise an error and no text |
| Processor.Pass.SetStage | internal/worker/processor.go:325-331 | the turn that writes the stage to row and record together, or leaves both and leads to the failing point |
| Processor.Pass.Fail | internal/worker/processor.go:334-342 | exactly the two failing turns, whatever becomes of the first |
| Script.FailGivesBoth | internal/worker/processor.go:334-342 | failing gives the statement for the job and then the one for its video, each exactly when the connection holds at its turn |
| Script.TurnsEnd | internal/worker/processor.go:93-153 | every turn brings the worker nearer to its end, so a pass ends in every environment |
| JobScripts.RunsArePlayed | internal/worker/processor.go:75-88 | a pass with the moments of a worker's life in the running system, over an embedder with the service and batch sizes of that life, has after every turn the tables and the worker of the system |
| JobScripts.ServiceExists | internal/worker/processor.go:239-273 | whatever vectors a script gives, there are a service and batch sizes with which a pass takes the same turns |
| JobScripts.PassesPlayRuns | internal/worker/processor.go:75-88 | when that worker has become idle, the world of such a pass leads, to where ProcessJob ends, with exactly the tables of the running system |
| Store.Database.CreateIntent | internal/database/queries/upload_intents.sql:1-21 | inserts the intent unless id or file key is taken; then nothing changes |
| Store.Database.GetIntentByFileKey | internal/database/queries/upload_intents.sql:23-36 | finds the one intent of the tenant with the file key, or none |
| Store.Database.MarkConsumed | internal/database/queries/upload_intents.sql:38-53 | an issued intent becomes consumed; any other is refused |
| Store.Database.CreateJob | internal/database/queries/jobs.sql:1-33 | inserts the job unless a unique column or the reference refuses it |
| Store.Database.UpdateJobStatus | internal/database/queries/jobs.sql:103-129 | sets the columns as the statement does for the tenant's job and refuses any other; `StartedAtLatestClaim` and `FinishedAtLatestEnd` say which times it leaves |
| Store.Database.RetryJob | internal/database/queries/jobs.sql:131-156 | a failed job becomes pending with one more retry and no times; any other is refused |
| Store.Database.ClaimNextPendingJob | internal/database/queries/jobs.sql:158-185 | claims the oldest pending job not locked by others; none is claimed exactly when all pending ones are locked |
| Store.Database.EnsureSegmentByName | internal/database/queries/segments.sql:26-37 | returns the tenant's segment of that name up to case, inserted if missing |
| Store.Database.AttachJobSegment | internal/database/queries/segments.sql:39-47 | links job and segment once |
| Store.Database.AttachVideoSegments | internal/database/queries/segments.sql:49-57 | links all the segments, or none when one is refused |
| Store.Database.ListSegmentNamesByJobID | internal/database/queries/segments.sql:59-65 | the names of the job's segments in listing order |
| Store.FirstIsUnique | internal/database/queries/segments.sql:59-65 | only one segment can come first, so the listing is one definite sequence |
| Store.Database.CreateVideo | internal/database/queries/videos.sql:1-27 | inserts the video unless a unique column or the reference refuses it |
| Store.Database.DeleteVideoByJobID | internal/database/queries/videos.sql:110-113 | removes the job's videos with all rows that cascade from them |
| Store.Database.FailVideoByJobID | internal/database/queries/videos.sql:115-119 | marks exactly the job's videos failed |
| Store.Database.UpdateVideoStatus | internal/database/queries/videos.sql:121-137 | sets the status of the tenant's video |
| Store.Database.SoftDeleteVideo | internal/database/queries/videos.sql:91-108 | marks an undeleted video of the tenant deleted |
| Store.Database.UpsertTranscript | internal/database/queries/transcripts.sql:1-24 | inserts or replaces the transcript of an existing video |
| Store.Database.InsertChunks | internal/database/repo/chunks.go:34-56 | inserts all the chunks in order, or none when one is refused |
| Store.Database.UpsertSummary | internal/database/queries/summaries.sql:1-32 | inserts or replaces the summary of an existing video |
| Schema.IntentsGoInExactlyWhen | migrations/001_init.sql:56-65 | an intent under a fresh id goes in exactly when the tables with it keep the unique columns and references |
| Schema.JobsGoInExactlyWhen | migrations/001_init.sql:70-85 | a job under a fresh id whose intent is there goes in exactly when the tables with it keep them |
| Schema.VideosGoInExactlyWhen | migrations/001_init.sql:116-128 | a video under a fresh id whose job is there goes in exactly when the tables with it keep them |
| Schema.LinksGoInExactlyWhen | migrations/001_init.sql:105-142 | a link to a segment that is there goes in exactly when the tables with it keep them |
| Schema.ContentGoesInExactlyWhen | migrations/001_init.sql:148-184 | a transcript, a summary, and a chunk under a free index go in exactly when the tables with them keep them |
| Schema.SegmentsGoInExactlyWhen | migrations/001_init.sql:95-102 | ensuring a segment inserts it exactly when the unique index allows it, and else changes nothing |
| Statements.JobStatementsKeepApart | internal/database/queries/jobs.sql:103-156 | an update or a retry changes no row of another tenant |
| Statements.VideoStatementsKeepApart | internal/database/queries/videos.sql:91-137 | a status update or a deletion of a video changes no row of another tenant |
| Statements.DeletionKeepsApart | internal/database/queries/videos.sql:110-113 | the removal of a job's videos changes and removes no row of another tenant |
| Statements.FailureKeepsApart | internal/database/queries/videos.sql:115-119 | marking a job's videos failed changes no row of another tenant |
| Statements.VideosOfJobExactly | internal/database/queries/videos.sql:110-119 | exactly the videos of the job and tenant are removed, or marked failed with no other column changed |
| Statements.RefusedExactlyWhen | internal/database/queries/videos.sql:91-137 | statements on one row are refused exactly where the tenant has no such row in the state they ask for |
| Statements.UpsertsReplace | internal/database/queries/summaries.sql:1-32 | an upsert leaves the given row, whatever was there, and changes no other |
| JobHandlers.Handler.CreateJob | internal/httpapi/handlers/job.go:36-162 | when the connection holds and the commit succeeds, exactly the specified transaction with the names of the job; otherwise every table is unchanged, with the error of the transaction or a database error |
| JobHandlers.Handler.CreateJobBody | internal/httpapi/handlers/job.go:51-152 | the statements in their order give the specified outcome and error |
| JobHandlers.Handler.RetryJob | internal/httpapi/handlers/job.go:223-255 | which error comes when, and the tables in each case, with others at work before the update and before the answer; undisturbed it succeeds exactly when the tenant has the job and it is failed |
| Retention.ListForRetention | internal/database/queries/jobs.sql:187-192 | every due job once, ordered by finishing time |
| Retention.RunRetention | internal/worker/retention.go:37-50 | when the listing succeeds, asks for the object of every listed job in order, and exactly those whose removal succeeded are gone, each of a job final for the retention age; otherwise asks for nothing |
| Chunker.SplitSentences | internal/core/chunker/chunker.go:47-61 | the loop over matches computes the sentences of the text |
| Chunker.RunsAreTheMaximalRuns | internal/core/chunker/chunker.go:14-14 | the matches are the maximal runs of terminators: they hold every terminator and nothing else, and never touch |
| Chunker.SentencesAreWellFormed | internal/core/chunker/chunker.go:47-61 | each sentence is trimmed and ends with its only run of terminators, but for an unfinished last one |
| Chunker.SentencesConserveText | internal/core/chunker/chunker.go:47-61 | the characters that are not white space are conserved in order |
| Chunker.SplitUndoesJoin | internal/core/chunker/chunker.go:27-61 | splitting joined sentences gives the sentences back |
| Chunker.Chunk | internal/core/chunker/chunker.go:27-45 | the loop over windows computes the sections of the text |
| Chunker.WindowShape | internal/core/chunker/chunker.go:33-43 | window k begins at sentence 2k and has three sentences, but for the last, which ends the text |
| Chunker.ChunkCount | internal/core/chunker/chunker.go:33-43 | n sentences give max(1, n/2) chunks, all but the last of three sentences |
| Chunker.ChunksSplitBack | internal/core/chunker/chunker.go:27-61 | splitting each chunk again gives its window of sentences |
| Chunker.ChunksRebuildSentences | internal/core/chunker/chunker.go:27-45 | the first chunk's sentences and those of every later chunk but its first rebuild the text's sentences |
| Chunker.TerminatorsAndSpaces | internal/core/chunker/chunker.go:14-14 | the terminators are full stop, exclamation and question mark; white space is that of Unicode |
| Chunker.ExampleChunks | internal/core/chunker/chunker.go:27-61 | a text of four sentences makes two chunks that share the third |
| Wake.NoWakeUpIsLost | internal/worker/worker.go:310-346 | while not shutting down, a signalled pending job implies a wake-up in the buffer or a worker that will claim again, even after a dropped send |
| Wake.WakeUpsAreConserved | internal/worker/worker.go:340-346 | in every run the wake-ups in the buffer are those sent into it and not received |
| Wake.ClaimsAreExclusive | internal/database/queries/jobs.sql:163-170 | rows locked by claims are pending and different, so the two-step claim is atomic to the others |
| Wake.QuietStepFalls | internal/worker/worker.go:310-336 | every step of a worker uses up the potential of the state |
| Wake.QuietRunsAreShort | internal/worker/worker.go:310-336 | without arrivals, wake-ups and claim errors no run takes more steps than the potential it starts with |
| Wake.StuckHasNoSignalled | internal/worker/worker.go:310-336 | when no worker can do anything, all wait and no signalled job is pending |
| Wake.Drains | internal/worker/worker.go:310-346 | in any run draining ends, and then no signalled job is left |
| Wake.PickedUpExactlyWhenAwake | migrations/001_init.sql:220-222 | a job that arrives without a notification is claimed before everyone waits exactly when a wake-up is buffered or a worker will claim again |
| Wake.ShutdownEndsWorkers | internal/worker/worker.go:310-336 | once the process shuts down each worker ends at most one job or claim more and is gone then |
| Wake.WorkersStay | internal/worker/worker.go:211-221 | there are always as many workers as configured, three when that is not positive and five when it is more |
| WorkerLoops.Pool.SendWake | internal/worker/worker.go:340-346 | never blocks; signals all pending jobs unless shutdown takes the other branch |
| WorkerLoops.Pool.WorkerLoop | internal/worker/worker.go:310-336 | for every script, exactly the steps that wait for a wake-up, drain and exit at shutdown |
| WorkerLoops.WorkersRunTheProtocol | internal/worker/worker.go:310-346 | whatever the script, the course of a worker is a run of the wake-up protocol in which every action takes effect |
| WorkerLoops.BlockedExactlyWhen | internal/worker/worker.go:312-318 | a worker takes no step exactly when it waits with an empty buffer and no shutdown, or has exited |
| WorkerLoops.Pool.ClaimNextPending | internal/database/queries/jobs.sql:158-185 | exactly the steps of the claim: locks the oldest unlocked pending job and updates it, or finds none, or gives up |
| WorkerLoops.Pool.TickerLoop | internal/worker/worker.go:290-303 | for every sequence of ticks, exactly the sends it lays down, counted |
| WorkerLoops.EveryTickSends | internal/worker/worker.go:290-303 | until shutdown there is a wake-up at the start and one at each tick, and the course is a run of the protocol |
| WorkerLoops.Pool.NotifyListener | internal/worker/worker.go:227-286 | for every sequence of sessions, exactly the sends, the number of pauses and the end it lays down; the k-th pause is min(2^(k-1), 30) seconds |
| WorkerLoops.ListensUntilShutdown | internal/worker/worker.go:227-248 | the listener ends only at shutdown; until then it pauses after every session and has sent a wake-up for each notification that carries a job, and its course is a run of the protocol |
| WorkerLoops.EveryNotificationSends | internal/worker/worker.go:262-277 | a session sends a wake-up for each notification that carries a job and for nothing else |
| RateLimit.TokenBucket.Allow | internal/ratelimit/token_bucket.go:43-63 | admits exactly when the call fits under capacity + refill * elapsed from every earlier call of the key and from itself; other keys have no part |
| RateLimit.TokenBucket.RefillBucket | internal/ratelimit/token_bucket.go:67-77 | adds the tokens of the time since the largest time seen, up to the capacity |
| RateLimit.TokenBucket.Reset | internal/ratelimit/token_bucket.go:80-84 | forgets all keys |
| RateLimit.TokensAreTheLeastRoom | internal/ratelimit/token_bucket.go:43-77 | the lazily refilled tokens are the least room left under all curves |
| RateLimit.AvailableExactlyWhenItFits | internal/ratelimit/token_bucket.go:56-62 | a token is there exactly when the call fits under every curve |
| RateLimit.NeverAboveTheCurve | internal/ratelimit/token_bucket.go:43-63 | between any two calls of a key no more are admitted than capacity + refill * time, also when the clock steps back |
| CircuitBreaker.RunIsAccounted | internal/circuitbreaker/breaker.go:126-194 | in every run, with any clock: half-open probes in flight or cancelled are counted and within the limit, zero otherwise; while closed, failures is the streak since the last success and below the limit |
| CircuitBreaker.LetInExactlyWhen | internal/circuitbreaker/breaker.go:155-173 | exactly when a call is let in, in each state |
| CircuitBreaker.RecoversAfterTimeout | internal/circuitbreaker/breaker.go:155-187 | with nothing in flight and no probe cancelled, the first call after the timeout gets in |
| CircuitBreaker.WedgedForever | internal/circuitbreaker/breaker.go:114-120 | once cancelled probes fill the limit and nothing is in flight, no call gets in ever again |
| CircuitBreaker.CanRecoverExactlyWhen | internal/circuitbreaker/breaker.go:155-187 | some continuation lets a call in exactly when the breaker is not open without a timeout, nor half-open with nothing in flight and cancelled probes up to the limit |
| CircuitBreaker.WedgedExample | internal/circuitbreaker/breaker.go:114-120 | one failure, the timeout and a cancelled probe lead there |
| CircuitBreaker.OpensExactlyWhen | internal/circuitbreaker/breaker.go:126-150 | it opens exactly when a probe fails or the streak reaches the limit, and late results never leave open |
| CircuitBreaker.CountStandsStill | internal/circuitbreaker/breaker.go:126-150 | while the breaker is not closed its count is the limit at which it opened, and zero exactly when a success was recorded since |
| CircuitBreaker.NoStartWhileOpen | internal/circuitbreaker/breaker.go:155-194 | with a monotone clock no call starts within a timeout of any opening |
| CircuitBreaker.FewOpenings | internal/circuitbreaker/breaker.go:176-194 | any window of length W holds at most 1 + W/timeout openings |
| CircuitBreaker.WithoutTimeout | internal/circuitbreaker/breaker.go:176-182 | without a timeout it opens at most once and stays open |
| CircuitBreaker.RunsUseTheMethods | internal/circuitbreaker/breaker.go:88-121 | the runs are those of the object's methods |
| CircuitBreaker.Breaker.Execute | internal/circuitbreaker/breaker.go:88-121 | refuses, records the result, or abandons without a record, exactly as breaker, context and function decide, with any other calls meanwhile |
| CircuitBreaker.Breaker.RecordResult | internal/circuitbreaker/breaker.go:126-150 | the new fields after a result, in each state |
| CircuitBreaker.Breaker.AllowAcquire | internal/circuitbreaker/breaker.go:155-173 | the decision and the new fields |
| CircuitBreaker.Breaker.EvaluateTimeout | internal/circuitbreaker/breaker.go:176-187 | open becomes half-open once a positive timeout has passed |
| CircuitBreaker.OpenForATimeout | internal/circuitbreaker/breaker.go:176-194 | once opened, whatever others ask and record before the timeout, the breaker stays open since the same time with no probes and with its count until a success is recorded, and the next call gets in exactly when a positive timeout has passed |
| CircuitBreaker.Breaker.State | internal/circuitbreaker/breaker.go:72-77 | the state after the timeout is evaluated |
| Summarizer.CutAtSentenceBoundary | internal/core/summarizer/summarizer.go:112-126 | the last terminator-then-space position in the window, or the limit if there is none |
| Summarizer.BoundariesEndSentences | internal/core/summarizer/summarizer.go:116-123 | a boundary is a full stop, exclamation or question mark before a blank |
| Summarizer.Summarizer.SplitSections | internal/core/summarizer/summarizer.go:87-108 | each piece but the last is well cut from what was left, the last one fits |
| Summarizer.SectionCharsIsTwice | internal/core/summarizer/summarizer.go:92-95 | the section length is twice the budget, or 24000 where the product wraps around |
| Summarizer.SplitIsAPartition | internal/core/summarizer/summarizer.go:97-107 | the pieces are the text in order, none empty, none longer than the limit |
| Summarizer.NeighboursExceed | internal/core/summarizer/summarizer.go:97-126 | two neighbouring pieces together exceed the limit |
| Summarizer.FewPieces | internal/core/summarizer/summarizer.go:97-107 | there are at most 2 * (length / (limit + 1)) + 1 pieces |
| Summarizer.LongTextHasThree | internal/core/summarizer/summarizer.go:43-60 | a text of at least 4 * (budget + 1) bytes is split into three pieces at least |
| Summarizer.Summarizer.Summarize | internal/core/summarizer/summarizer.go:42-72 | asks just for the whole text exactly when it has fewer than 4 * (budget + 1) bytes; else a prompt for each of three or more pieces in order and one on the joined answers; an error ends it at once |
| Summarizer.PromptsAreDocuments | internal/core/summarizer/summarizer.go:80-83 | a prompt is the text between document tags, and answers are joined by an empty line |
| Embedding.Embedder.EmbedOne | internal/providers/cloudflareai/cloudflareai.go:102-123 | one request; a wrong number of vectors is an error |
| Embedding.Embedder.EmbedBatch | internal/providers/cloudflareai/cloudflareai.go:78-99 | asks for the batches in order up to the first that is not good; all vectors when all are good, none otherwise |
| Embedding.BatchesAreFull | internal/providers/cloudflareai/cloudflareai.go:84-96 | the batches are the texts in order, and all but the last have exactly the batch size |
| Embedding.PlanCoversSections | internal/worker/processor.go:239-273 | the requests of the two layers together are the sections in order |
| Embedding.Embedder.EmbedSections | internal/worker/processor.go:239-273 | chunk i is section i with its vector and index i; after an error there are no chunks |
| Embedding.AnswersAreTheMap | internal/providers/cloudflareai/cloudflareai.go:78-99 | for a pointwise service the vectors are the map over the texts |
| Embedding.BatchSizesDoNotMatter | internal/worker/processor.go:239-273 | any two pairs of batch sizes make the same rows: section i, its embedding, index i |
| Backoff.WaitIsCappedDoubling | internal/providers/httpclient/client.go:240-246 | the k-th delay is min(initial * 2^(k-1), cap) |
| HttpRetry.HTTPClient.DoWithRetry | internal/providers/httpclient/client.go:176-225 | obeys the one specification of attempts, pauses and result |
| HttpRetry.HTTPClient.DoWithRetryReader | internal/providers/httpclient/client.go:111-172 | obeys it too; one body for each attempt, each closed but that of the returned response |
| HttpRetry.ObeysIsUnique | internal/providers/httpclient/client.go:109-225 | the specification fixes attempts, pauses and result |
| HttpRetry.RetryGuarantees | internal/providers/httpclient/client.go:157-170 | at most max(0, maxRetries) + 1 attempts; a retryable status only from the last; the k-th pause is min(initialWait * 2^(k-1), maxWait) |
| HttpRetry.WhatTheCallerGets | internal/providers/httpclient/client.go:109-225 | which outcome the caller gets, exactly, from how the last attempt went |
| HttpRetry.LoopsAgree | internal/providers/httpclient/client.go:109-225 | on every script whose bodies build the two loops do the same |

## Left out

- HTTP routing, request validation, authentication, API keys, audit logs, CORS, logging and health checks: one-branch glue.
- Storage, transcription, parsing, embedding and model calls: arbitrary outcomes or parameters; media validation and temporary files are part of the outcome of the download.
- Row level security, MVCC snapshots, vector distance and index details: statements and transactions are atomic. `EnsureSegmentByName` can find no row when another transaction inserts the name at the same moment; here that is one of the arbitrary failures.
- The order and limit of search results and the paginated lists: only the filter of the search is modelled.
- The columns `updated_at`, `duration_seconds`, `created_at` of rows other than jobs, and the trigger that maintains the first.
- Deletion of tenants, jobs and segments by hand, and several processes with a channel each.
- The providers leave the transcript's id empty, which a uuid column may refuse; the outcome of the upsert is arbitrary here, so both cases are covered.
- Goroutines are not objects: concurrency is the interleaving of atomic steps, in `JobSystem`, `Wake` and `CircuitBreaker`, and foreign activity between the statements of a method, given as an input, in `Processor`, `JobHandlers`, `WorkerLoops` and `CircuitBreaker`.
- The job system and the wake-up protocol are separate models: the first leaves open when workers claim, the second what they do with a job.
- The pause after a claim error, the polling interval and the grace period after shutdown: only their order with other events is modelled.
- Floating-point rounding of tokens, saturation of durations and UTF-8 decoding.
- The draining of response bodies and the decoding of JSON answers in the HTTP client.
- JobHistory.RetentionIsOld: speaks of the moment of listing; a retry after that may race with the deletion of the source file.
- JobResults.RetriesAreIdempotent: compares rows up to ids and times; without its condition `AttemptIsSoundExactlyWhen` gives the counterexample.
- WorkerLoops.Pool.WorkerLoop: follows the loop for a given number of steps, since it has no end of its own.
- Store.Database.ListSegmentNamesByJobID: rows whose names the collation does not tell apart come in the order of their ids, where the database may choose.
- Processor.Pass.ProcessJob: the error message is an input; its wording is not modelled.
- JobHandlers.Handler.CreateJob: a connection that breaks at any statement is one input, since the rollback leaves the same tables.
- JobHandlers.Handler.RetryJob: the answer is the success alone, without the rows that are read for it.
