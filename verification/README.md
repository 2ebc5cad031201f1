# Jennah: verified models

Jennah runs containerised jobs on Google Cloud. A gateway finds the caller's tenant and passes the
request to one of several workers; the worker classifies the job, submits it to Cloud Run or Cloud
Batch, records it in a shared Jobs table, and polls the provider until the job ends. A lease in the
table says which worker polls which job. A demo workload shows distributed processing: a file or a
list of records is divided among instances, whose metrics are merged afterwards.

The models follow that code in Dafny. Code that changes things step by step is a class or a method
with a loop, proved against a specification function; the interleaving of goroutines is a state
machine over their database and provider calls; the main results are lemmas over every input, every
run or every interleaving.

| module | part of the repository | main results |
|---|---|---|
| Jobs, Pollers, Workers, Handlers | table transactions, one poller's loop, one worker's registry and reconciler, its submit and cancel handlers | the audit trail is a chain, the status is the last one reported, a poller gives up exactly at the limit, a reconcile pass treats every row |
| Cluster, TerminalStatus, Leases, Availability, SerialPolling, LeaseRuns, Assignments | any number of workers over one table, every step of a handler, tick and reconcile pass interleaved | exactly when a terminal status, and its announcement, is final; lease exclusion and the renewals it takes; exactly when leases make polling serial; a job that nobody cancels ends once; no job is lost; a cancellation asks the service the job was submitted to |
| Splits, Sums, Runs, Lines, Chunker, Sentiment, Processor, Metrics | division of the input, the counting loops, the merge | the ranges partition the input, the loops count what they should |
| RecordMode, ByteRangeMode, ScoreBounds | the distributed run against a single instance | equality in RECORD mode, the exact error in BYTE_RANGE mode, averages stay in range |
| FieldSelection, Keywords | text selection from JSON records, top keywords | the leaves are the places that show a text, a leaf is collected exactly when its path is selected, map order does not matter there |
| Tenants | the gateway's double-checked tenant cache | one tenant per user over every interleaving; exactly when a call returns none |
| Names, ProviderIds | two sanitisers, two id generators | the same slug, fixed points, the Batch grammar |
| Routing | classifier and task-group builder | exactly when a job runs on Cloud Batch; a job with several tasks always does; exactly when the two readers agree and map order cannot decide |

`dafny verify dfyconfig.toml` checks everything.

## How the models relate to the code

- In module Cluster a handler or a tick is several steps: the claim, the provider's answer and the
  blind status write are separate, so every interleaving of them is a run. A claim transaction, a row
  insert and a status write are one step each. A status write and the log entries that follow it are
  one step.
- Provider answers, database errors of a claim, Gemini's answer, drawn ids and clock readings are
  parameters of the steps, so the results hold for all of them. Library calls whose inner working
  is not the point (case folding, trimming, number parsing and formatting, rune and field counts of
  non-ASCII text, the division of an input into records, analyzers) are function parameters; what is
  used of them is a named predicate (`Names.LowerIsStable`, `Routing.Lawful`, `ByteRangeMode.CountsAscii`).
- Iteration over a Go map visits its keys in any order (`:|` over a shrinking set of keys, or any
  order of the entries of an object).
- Floating-point numbers are reals: rounding is not modelled.
- Integers are unbounded; `Chunker.NoIntermediateExceedsFileSize` shows why 64 bits suffice there.
- Bytes, not characters, are counted in job ids, which are ASCII.

## Where the code does not do what one might expect

- A terminal status can be overwritten: the status write reads nothing. It is final exactly when no
  goroutine is past its guard with another status to write. A job can also have two terminal events,
  even with the same status: status and events together are final exactly when nothing is past its
  guard on the job (`TerminalStatus.OverExactlyWhenNothingInFlight`), so the first announcement is sure
  to be the only one exactly when the goroutine that makes it is alone on the job
  (`TerminalStatus.OnceForAllExactlyWhenAlone`). In serial runs it always is, and leases and registries
  make a timely run serial for a job that nobody cancels and that is not taken over in the middle of a
  tick (`SerialPolling.UncancelledJobEndsOnce`). `TerminalStatus.SubmissionOverwritesCancellation` is a
  run in which a cancelled job completes and is announced twice.
- A worker that crashes between the insert and the provider's answer leaves a row that no worker will
  ever pick up (`Availability.ListableExactlyWhileSubmitting`; `LeaseRuns.CrashStrands` is a run).
- Leases do not quite serialise polling: the preferred worker may take a job over in the middle of
  another worker's tick, and then both poll it. Over timely runs this is the only way in which ticks of
  two workers overlap (`Leases.SerialExactlyWithoutTakeover`), and it does occur
  (`LeaseRuns.TakeoverOverlaps`).
- When the database aborts a claim transaction and runs it again, `claimed` keeps a true of the aborted
  attempt, so a worker can be told that it holds a lease that is another's
  (`Jobs.ClaimedMeansOwnedExactlyWhen`).
- A renewal with an old expiry brings a worker's own lease forward: the expiry promised before holds
  exactly if the renewal asks for no earlier one (`Leases.PromiseKeptExactlyWhen`;
  `LeaseRuns.StaleRenewalShortensLease` is a run).
- BYTE_RANGE mode over-counts lines and words and under-counts characters, by exactly the number of
  bad cuts.
- A drawn tenant id that exists already is cached for a user it does not belong to, although the
  comment there says another instance created this user's tenant; and the cache ignores the identity
  provider (`Tenants.AgreesExactlyWhenIdIsNew`, `Tenants.CachedTenantIsTheirsExactlyWhenProviderMatches`).
- The navigator's job ids are documented as Batch-compatible, but a name without letters and digits,
  or a cut at a hyphen, gives one that is not (`ProviderIds.NavigatorIdMeetsGrammarExactlyWhen`).
- The classifier and the task-group builder read the same variables by different rules
  (`Routing.ReadersAgreeExactlyWhen`; `Routing.BatchForSingleTask` is an instance), and with two
  spellings of a variable the map order can decide the service (`Routing.OrderNeverDecidesExactlyWhen`;
  `Routing.OrderCanDecide` is an instance). A machine type is documented to force Cloud Batch, but
  Gemini's answer overrides it (`Routing.GeminiAgreesExactlyWhen`).

## Model

| member | source | states |
|---|---|---|
| Jobs.JobsTable.InsertJobFull | internal/database/jobs.go:24-48 | an existing key is refused and nothing changes; otherwise exactly that row is added |
| Jobs.JobsTable.UpdateJobStatus | internal/database/jobs.go:140-151 | the status of an existing row becomes the given one whatever it was, every other column and row stays |
| Jobs.JobsTable.UpdateJobStatusAndGcpBatchJobPath | internal/database/jobs.go:154-165 | status, path, tier and service of an existing row are set, the lease columns and all other rows stay |
| Jobs.JobsTable.FailJob | internal/database/jobs.go:183-195 | the row becomes FAILED, nothing else changes |
| Jobs.JobsTable.TryClaimOrRenewJobLease | internal/database/jobs.go:293-340 | one attempt of the transaction, in terms of the row alone: claimed if and only if the job is not terminal and is the worker's own, unowned, expired or prefers the worker; then owner, expiry and heartbeat and nothing else are written; a missing row is an error |
| Jobs.JobsTable.TryClaimOrRenewUntilCommitted | internal/database/jobs.go:293-340 | the whole call with any number of aborted attempts: the row is as the last attempt leaves it, the answer true if any attempt claimed |
| Jobs.ClaimedMeansOwnedExactlyWhen | internal/database/jobs.go:294-331 | an answer of true means ownership, whatever the last attempt finds, if and only if no aborted attempt claimed |
| Jobs.JobsTable.ListActiveJobs | internal/database/jobs.go:254-289 | exactly the pending, scheduled and running rows with a cloud path, each once |
| Pollers.JobPoller.constructor | cmd/worker/service/pollers.go:42-91 | a poller starts live at the given status with no failed attempt; an unspecified service is inferred from the tier |
| Pollers.JobPoller.Step | cmd/worker/service/pollers.go:118-209 | one turn of the select loop: the status becomes what the check that passed reports, the primary's or at the limit the fallback's, PENDING for an unknown one, and otherwise stays; attempts, service, log and stop are those of the turn function |
| Pollers.JobPoller.Poll | cmd/worker/service/pollers.go:107-212 | the whole loop, over any sequence of ticks and stops, is the life function |
| Pollers.AuditTrailIsAChain | cmd/worker/service/pollers.go:168-209 | over any life each record starts where the one before ended and changes the status, only the last can be terminal, and a terminal event is published exactly when the last status is terminal |
| Pollers.FailedAttemptsCounted | cmd/worker/service/pollers.go:118-169 | at every loop head the counter is below the limit and equals the checks failed since the last success (rescued checks are successes, lease errors do not count); the service changes at most once, only to Cloud Batch |
| Pollers.GivesUpExactlyAtTheLimit | cmd/worker/service/pollers.go:140-163 | a poller gives up if and only if some turn is the failing check that makes the limit |
| Pollers.StatusIsLastReport | cmd/worker/service/pollers.go:118-209 | over any life the final status is what the last check that passed reported, COMPLETED for COMPLETED and so on, PENDING for an unknown one, or the initial status if none passed; no later turn is live |
| Pollers.RecoveredPollerAsksTheSameService | cmd/worker/service/pollers.go:50-62 | a poller that a reconcile pass starts from the stored tier alone asks the service that the submission's own poller asked |
| Workers.WorkerService.StartJobPollerWithService | cmd/worker/service/pollers.go:42-104 | a registered key keeps its poller; otherwise a new one is registered for exactly that key |
| Workers.WorkerService.StopPollerForJob | cmd/worker/service/pollers.go:241-251 | the registered poller is stopped and forgotten, all others stay |
| Workers.WorkerService.PassOverAll | cmd/worker/service/pollers.go:294-314 | claiming the listed jobs one after the other treats every row of the table as its own columns say, in any order of the listing |
| Workers.WorkerService.ReconcileActiveJobLeases | cmd/worker/service/pollers.go:283-321 | after a pass, with clock readings of its own for each job, every claimable active row is leased by this worker and has a poller, rows it could not claim and pollers it had are unchanged |
| Workers.ReconcileTakesExactly | cmd/worker/service/pollers.go:283-321 | a pass takes a row if and only if it has a path, is not terminal and is the worker's own, unowned, expired or prefers the worker; then owner, expiry and heartbeat change, else nothing does |
| Workers.ExpiredLeaseIsTaken | internal/database/jobs.go:314-327 | an active row whose lease has expired is taken by whichever worker reconciles next, which then holds a lease of its full TTL |
| Handlers.SubmitJob | cmd/worker/service/handlers.go:96-261 | an invalid or repeated request changes nothing; otherwise exactly one row is added, owned by and preferring this worker, leased until its TTL after the insert; it is FAILED without a path, or has the provider's path, service, tier and status (RUNNING for none), and then a poller is started at that status |
| Handlers.CancelJob | cmd/worker/service/handlers.go:300-397 | refused without effect for a missing or terminal job or a refusing provider, Cloud Run being asked for a job stored there and Cloud Batch for any other; otherwise the row is CANCELLED, recorded and announced, and this worker's poller is stopped and forgotten |
| Handlers.UninterruptedSubmission | cmd/worker/service/handlers.go:147-252 | the separate steps of a submission, taken without interruption, leave the table, log, registry and poller that the handler leaves |
| Handlers.UninterruptedCancellation | cmd/worker/service/handlers.go:325-388 | the same for a cancellation, its log, the registry and the poller that is told to stop |
| Assignments.CancellationAsksTheAssignedService | cmd/worker/service/handlers.go:333-351 | over every run, a job keeps the path, tier and service of its accepted submission, and any later cancellation of it is decided by the answer of that very service |
| Cluster.UninterruptedTickIsATurn | cmd/worker/service/pollers.go:118-209 | a tick's separate steps from its lease claim on, taken without interruption, do to the whole state, registry included, exactly what one turn of the loop does, whether the claim succeeds, is refused or fails |
| TerminalStatus.InFlightComesFrom | cmd/worker/service/handlers.go:325-340 | a goroutine gets past its guard on a job only by reading it while the job is not terminal |
| TerminalStatus.TerminalIsFinalExactlyWhenUnthreatened | cmd/worker/service/pollers.go:168-209 | no continuation changes a terminal status if and only if no goroutine is past its guard with another status to write |
| TerminalStatus.LockPerJobIsSerial | cmd/worker/service/pollers.go:118-208 | if guards are read only while nobody else is in flight on the job, the run is serial |
| TerminalStatus.SerialRunAnnouncesOnce | cmd/worker/service/handlers.go:325-385 | in a serial run a job has one terminal event with its stored status exactly when it is terminal (none if the provider called it terminal at submission) |
| TerminalStatus.TerminalOnceAndForAll | cmd/worker/service/pollers.go:118-208 | once a run that is serial for the job has made it terminal, nothing that follows, serial or not, changes its status or announces it again |
| TerminalStatus.OverExactlyWhenNothingInFlight | cmd/worker/service/pollers.go:168-209 | no continuation changes a terminal job's status or publishes another event if and only if nobody is past their guard on it |
| TerminalStatus.OnceForAllExactlyWhenAlone | cmd/worker/service/pollers.go:118-208 | over every run, the step that first makes a job terminal announces it once with the stored status, and status and events are final from then on if and only if nobody else is past their guard on the job at that step |
| TerminalStatus.SubmissionOverwritesCancellation | cmd/worker/service/handlers.go:233-252 | a run in which a cancellation between insert and status write is undone and the job completes |
| Leases.OnlyClaimsTouchLeases | internal/database/jobs.go:293-340 | over all steps of all goroutines only a claim changes owner, preferred worker or expiry, and as its transaction does |
| Leases.LeaseExcludesOthers | internal/database/jobs.go:313-331 | until the expiry held by a preferred (or undisputed) owner every other worker's claim is refused, through any run whose renewals do not go back |
| Leases.PromptClaimExcludesOthers | internal/database/jobs.go:313-331 | after a successful claim with expiry counted from its own commit time, every other worker is refused up to that expiry, whatever happens in between |
| Leases.SubmissionHolds | cmd/worker/service/handlers.go:148-171 | the insert of a submission leaves the job leased to its worker, who is also preferred, until the worker's TTL after the insert |
| Leases.SubmissionExcludesOthers | cmd/worker/service/handlers.go:148-171 | through any run of prompt claims every other worker's claim on a fresh submission is refused until then |
| Leases.SubmissionOpensExactlyAfterItsLease | cmd/worker/service/handlers.go:148-171 | in any run without a claim on it, a fresh submission is open to another worker if and only if more than the TTL has gone by |
| Leases.NoPingPong | internal/database/jobs.go:314-322 | while the lease is never found expired the owner changes at most once, only to the preferred worker, and never away from it |
| Leases.RenewingOwnerKeepsJob | internal/database/jobs.go:313-331 | a preferred (or undisputed) owner that renews before its stored expiry passes keeps the job for the whole run, without any change of ownership |
| Leases.PromptOwnerKeepsJob | internal/database/jobs.go:313-331 | the same from renewals at most a TTL apart with expiries counted from the commit; every other claim is refused at the end |
| Leases.OwnershipMoves | internal/database/jobs.go:314-331 | the preferred worker's claim on a non-terminal job always succeeds; ownership moves if and only if the job is free or the claimant preferred; a claim succeeds if and only if the claimant owns the job afterwards, until the time it asked for |
| Leases.RenewalExcludesExactlyWhen | internal/database/jobs.go:313-331 | a renewal keeps a worker that is not preferred out until a given time if and only if it asks for no earlier expiry |
| Leases.PromiseKeptExactlyWhen | internal/database/jobs.go:313-331 | over every continuation in which the owner's later renewals keep to the promised expiry, another worker is shut out until then if and only if this renewal asked for no earlier one; otherwise waiting lets it in |
| Leases.OwnerExcludesOthers | internal/database/jobs.go:313-331 | any owner, one after a fail-over included, shuts out every worker but the preferred one until its expiry and keeps the job while the preferred worker makes no claim |
| Leases.OverlapExactlyOnTakeover | internal/database/jobs.go:314-322 | a step that lets no tick outlast the stored expiry makes ticks of two workers overlap if and only if it is the preferred worker's claim for a tick in the middle of another worker's |
| Leases.SerialExactlyWithoutTakeover | cmd/worker/service/pollers.go:118-209 | over every run, from an empty table, of such steps, ticks of two workers never overlap on a job if and only if no tick begins by such a takeover; fail-overs are included |
| LeaseRuns.TakeoverOverlaps | internal/database/jobs.go:314-322 | a timely run in which, after a fail-over, the preferred worker begins a tick in the middle of one of the new owner |
| LeaseRuns.StaleRenewalShortensLease | cmd/worker/service/pollers.go:302 | a run in which a late reconcile claim brings forward a lease that a tick has renewed, so that another worker would be let in early |
| LeaseRuns.CrashStrands | cmd/worker/service/handlers.go:147-215 | a run in which a crash leaves a pending row that no worker can ever see |
| SerialPolling.UncancelledRunIsSerial | cmd/worker/service/pollers.go:94-209 | over every timely run without a takeover in the middle of a tick, if nobody cancels the job at most one goroutine at a time is past its guard on it: leases exclude other workers and the registry a second poller |
| SerialPolling.UncancelledJobEndsOnce | cmd/worker/service/pollers.go:118-208 | so such a job, once terminal, has exactly one terminal event with its stored status (none if terminal at submission), and nothing that follows changes either |
| Availability.NoJobIsLost | cmd/worker/service/handlers.go:147-252 | in every reachable state a non-terminal job is listed as active, still being submitted, or cut off by a crash |
| Availability.ListableExactlyWhileSubmitting | cmd/worker/service/handlers.go:147-252 | a job without a path can become visible to the reconciler if and only if its submission is still under way |
| Availability.RunKeepsRegistryLive | cmd/worker/service/pollers.go:94-110 | in every reachable state a registered poller is a live goroutine of that worker for that job that has not been told to stop |
| Availability.UninterruptedPassReconciles | cmd/worker/service/pollers.go:283-314 | from any reachable state, every uninterrupted pass over any listing does to each job what the worker's reconcile method does, jobs whose claim fails included |
| Availability.PassExists | cmd/worker/service/pollers.go:283-314 | from every reachable state and for every listing there is such a pass in which no claim fails |
| Availability.ReconcileTakesOver | cmd/worker/service/pollers.go:283-314 | in every such pass an active job that is unowned, expired, or preferred or owned by the worker ends up leased and polled by it; any other is left as it was |
| Chunker.RangeBetweenCuts | internal/demo/chunker.go:31-91 | every valid instance and no other gets a range, and it lies between two consecutive cuts; small files differ only in where the empty range is put |
| Chunker.NoIntermediateExceedsFileSize | internal/demo/chunker.go:57-90 | every product and sum on the way is between 0 and the file size |
| Chunker.FairShares | internal/demo/chunker.go:46-91 | sizes differ by at most one, and exactly the first fileSize mod n instances have the extra byte |
| Chunker.CutsPartition | internal/demo/chunker.go:46-91 | the cuts run from 0 to the file size and leave nobody empty before the end is reached |
| Chunker.PiecesPartition | internal/demo/chunker.go:31-99 | what the instances read, in order, is the whole input |
| Chunker.EveryPositionOnce | internal/demo/chunker.go:31-91 | every position of the file lies in the range of exactly one instance |
| Splits.ErrorOfSplitting | internal/demo/chunker.go:31-91 | a measure summed over consecutive pieces exceeds that of the whole by the number of bad seams, fewer than there are pieces |
| Lines.LinesCounted | internal/demo/processor.go:177-189 | the scanner yields one line per line feed and one for an unfinished last line |
| Lines.ScanningGivesBackTheLines | internal/demo/processor.go:177-189 | every text is a number of lines that end in a line feed and a rest without one, and the scanner yields just these in order, each less one carriage return at its end |
| Lines.WordsCountTheirStarts | internal/demo/processor.go:194-196 | the number of words is the number of places where white space, or nothing, stands before something else |
| Lines.WordsLineByLine | internal/demo/processor.go:187-196 | counting the words of each line counts the words of the text |
| Lines.LengthsLineByLine | internal/demo/processor.go:187-192 | the lengths of the lines add up to the text less its line feeds and the carriage returns that are dropped |
| Sentiment.SentimentAccumulator.AddResult | internal/demo/sentiment.go:118-143 | a result counts in exactly one bucket, by its label or else by its score, and adds its score; nil adds nothing |
| Sentiment.SentimentAccumulator.Result | internal/demo/sentiment.go:145-155 | nil exactly when nothing was added, otherwise the counts with average and label |
| Sentiment.SentimentScore | internal/demo/sentiment.go:171-202 | the lexicon score is in [-1, 1], its sign tells which lexicon is hit more often, and it is extreme exactly when only one is hit |
| Processor.CountRange | internal/demo/processor.go:137-149 | the record loop succeeds exactly when every analysis does, and then has counted exactly the records of the range |
| Processor.CountLines | internal/demo/processor.go:182-202 | the scan loop succeeds exactly when every analysis does, and then has counted every line |
| Processor.ProcessRecords | internal/demo/processor.go:111-156 | RECORD mode reports the counts of the instance's own records, or the range or analysis error |
| Processor.Process | internal/demo/processor.go:38-109 | the outcome in either mode as a function of the input and the instance, which the rows of ShareExactlyForValidInstance, RecordMode and ByteRangeMode are about |
| Processor.ShareExactlyForValidInstance | internal/demo/processor.go:38-120 | in both modes an instance outside 0..total-1 is refused, with its own error, and no other is refused for its number; one that succeeds reports its own range and exactly its fair share of records or bytes |
| Metrics.AggregatedMetrics.Calculate | internal/demo/metrics.go:86-127 | totals grow by the sums over the instances, minimum <= average <= maximum are those of the instances, sentiment is the weighted merge, and nothing changes without instances |
| Metrics.AggregatedMetrics.ScanTimes | internal/demo/metrics.go:100-113 | finds a maximum and a minimum of the times and their sum |
| Metrics.SecondsAddUp | internal/demo/metrics.go:100-113 | the sum that the average is taken of counts every instance's time once |
| Metrics.AggregatedMetrics.MergeSentiments | internal/demo/metrics.go:134-154 | buckets are summed and averages weighted by their records; instances without sentiment are skipped |
| RecordMode.AllSucceedTogether | internal/demo/processor.go:117-150 | all instances succeed if and only if a single instance would |
| RecordMode.SummaryKeepsResults | internal/demo/metrics.go:148-149 | an instance's average weighted by its counts gives back its total score |
| RecordMode.MergedEqualsSingle | internal/demo/processor.go:117-150 | for every record list and number of instances the merged counts, buckets, average and label are those of one instance over all records |
| RecordMode.RunsSucceedExactlyWhenAnalysable | internal/demo/processor.go:38-150 | the calls of Process for all instances succeed, as does the single one, if and only if every record of the input can be analysed |
| RecordMode.MergedRunsCountEveryRecord | internal/demo/processor.go:38-150 | for every number of instances the reports of Process merge to the report of a single instance, which has every record of the input once: their number, bytes, words, characters and sentiment |
| ByteRangeMode.LinesOverCounted | internal/demo/processor.go:159-220 | bytes add up to the file size; a single instance counts the scanner's lines, several over-count them by exactly the number of ranges that end inside a line, fewer than there are instances |
| ByteRangeMode.BytesAddUpToInputSize | internal/demo/processor.go:59-75 | whatever input size is configured, the bytes reported by all instances add up to it, or to the file's size if none is |
| ByteRangeMode.WordsOverCounted | internal/demo/processor.go:194-196 | for ASCII input a single instance counts the words by their beginnings, several over-count them by exactly the number of cuts with non-space on both sides |
| ByteRangeMode.CharactersOfSingle | internal/demo/processor.go:191-192 | for ASCII input a single instance counts every character but line feeds and the carriage returns dropped at line ends |
| ByteRangeMode.CharactersUnderCounted | internal/demo/processor.go:191-192 | for ASCII input characters are under-counted by exactly the number of cuts after a carriage return that no line feed follows |
| ScoreBounds.InstanceInRange | internal/demo/sentiment.go:118-155 | if every score is in [-1, 1] the buckets add up to the records and the average is in [-1, 1] |
| ScoreBounds.MergedInRange | internal/demo/metrics.go:134-163 | merging keeps both: bucket totals equal the records and the weighted average stays in [-1, 1] |
| FieldSelection.CollectTextValues | internal/demo/sentiment.go:270-289 | appends the text of every non-empty leaf, in order, and nothing else |
| FieldSelection.LeavesAreThePlaces | internal/demo/sentiment.go:244-289 | the leaves are exactly the places of the value that hold a non-blank text, a number or a truth value, each once and in document order, with the text shown there and the keys on the way |
| FieldSelection.DottedPathIsUnambiguous | internal/demo/sentiment.go:250-258 | as long as keys are not empty and have no dots in them, equal dotted paths mean equal keys |
| FieldSelection.CollectSelectedTextValues | internal/demo/sentiment.go:244-268 | appends a leaf if and only if some key on its path is selected by name or dotted path, exactly once |
| FieldSelection.TextForSentiment | internal/demo/sentiment.go:221-242 | the selected texts of a record, or all if none is selected, joined by spaces; the trimmed record if it does not decode or has no text |
| FieldSelection.OrderDoesNotMatter | internal/demo/sentiment.go:244-289 | whatever order the entries of any object are visited in, the same multiset of texts is collected |
| Keywords.TopKeywordsFromCounts | internal/demo/sentiment.go:317-343 | descending by count and ascending by key among equal counts, of length min(limit, positive keys), and no omitted key outranks an included one |
| Keywords.TopIsUnique | internal/demo/sentiment.go:317-343 | these properties determine the list, so no map order can change it |
| Keywords.LessIsLexicographic | internal/demo/sentiment.go:331 | the order of keys: a proper prefix comes first, else the smaller character where two keys first differ |
| Tenants.StepKeepsGood | cmd/gateway/service/oauth.go:33-95 | every step of every caller keeps the invariant behind the results below |
| Tenants.OneTenantForAll | cmd/gateway/service/oauth.go:33-95 | over every interleaving of any number of callers no user has two tenants and the cache agrees with the table |
| Tenants.CallersAgree | cmd/gateway/service/oauth.go:33-95 | the tenant that a call returns is its user's, and two calls return the same one if and only if they are for the same user |
| Tenants.EmptyHandedExactlyAfterOwnFailure | cmd/gateway/service/oauth.go:43-92 | over every run a call comes away without a tenant if and only if its own query or its own insert failed |
| Tenants.CallCompletes | cmd/gateway/service/oauth.go:33-95 | from every good state in which nobody else has the lock, a call at any point has failure-free steps of its own that return its user's tenant and free the lock, inserting the drawn id exactly if the user had none |
| Tenants.RequestCompletes | cmd/gateway/service/oauth.go:30-95 | so a new request, for a known user or a new one, returns the user's tenant by its own steps for any unused drawn id |
| Tenants.CacheIsStable | cmd/gateway/service/oauth.go:53-55 | an entry of the cache never changes |
| Tenants.AgreesExactlyWhenIdIsNew | cmd/gateway/service/oauth.go:73-90 | after the insert, cache and table agree if and only if the drawn id was not in use |
| Tenants.CachedTenantIsTheirsExactlyWhenProviderMatches | cmd/gateway/service/oauth.go:33-42 | a cached tenant is the caller's if and only if the caller comes from the provider it was cached for |
| Tenants.Gateway.CacheTenant | cmd/gateway/service/oauth.go:51-60 | the section under the lock caches and returns the tenant found, and does what the protocol's steps do |
| Tenants.Gateway.CreateTenant | cmd/gateway/service/oauth.go:63-95 | a tenant cached meanwhile is returned and a failed insert changes nothing, else the drawn id is inserted, cached and returned; each as the protocol's steps do |
| Names.SanitiseForWorker | cmd/worker/service/handlers.go:516-532 | the worker's loop computes the slug |
| Names.SanitiseLabel | internal/navigator/builder.go:178-194 | the navigator's loop computes the same slug |
| Names.SlugJoinsTheWords | cmd/worker/service/handlers.go:516-532 | the slug is the maximal runs of lower-case letters and digits joined by single hyphens |
| Names.FixedExactlyWhenClean | internal/navigator/builder.go:176-194 | the fixed points are exactly the texts without leading, trailing or doubled hyphens or other characters |
| Names.SanitisingIsIdempotent | internal/navigator/builder.go:178-194 | sanitising twice is sanitising once |
| ProviderIds.GenerateWorkerId | cmd/worker/service/handlers.go:509-547 | computes the id, or fails on a job id that is too short |
| ProviderIds.WorkerIdMeetsGrammar | cmd/worker/service/handlers.go:503-547 | for every name and UUID-like job id the id matches the Batch grammar, has no doubled hyphen and ends in the short id |
| ProviderIds.NamedIdMeetsGrammarExactlyWhen | cmd/worker/service/handlers.go:516-546 | with a name the grammar is met if and only if the short id is lower-case letters and digits |
| ProviderIds.WorkerNameKeepsWhatFits | cmd/worker/service/handlers.go:509-547 | the id is the name part, a hyphen and the first eight characters of the job id without hyphens; the name part is the longest prefix of the (letter-led) slug of the lower-cased name that fits 55 characters and does not end in a hyphen; an unnamed job has jennah- there |
| ProviderIds.OnlyHyphensGo | cmd/worker/service/handlers.go:509 | dropping hyphens from a job id keeps everything before, between and after them |
| ProviderIds.ShortIdsNeverCollide | cmd/worker/service/handlers.go:503-547 | different short ids give different provider ids, whatever the names |
| ProviderIds.GenerateNavigatorId | internal/navigator/builder.go:152-174 | computes prefix and suffix cut at 63 characters |
| ProviderIds.NavigatorIdKeepsWhatFits | internal/navigator/builder.go:152-174 | jennah- and as much of the slug of the lower-cased name as fits 63 characters, or the first eight characters of the job id without hyphens |
| ProviderIds.NavigatorIdMeetsGrammarExactlyWhen | internal/navigator/builder.go:147-174 | the documented length and alphabet always hold; the grammar is met if and only if the slug is not empty and the cut leaves no hyphen |
| ProviderIds.UnnamedNavigatorIdMeetsGrammarExactlyWhen | internal/navigator/builder.go:160-173 | without a name the grammar is met if and only if the shortened job id is non-empty and lower-case alphanumeric |
| ProviderIds.NavigatorIdCanMissGrammar | internal/navigator/builder.go:157-173 | the name "!!!" gives an id that is not a Batch job id |
| Routing.LookupEnvVar | internal/router/classifier.go:245-255 | finds the exact key's value, else that of some key equal under case folding, and nothing if and only if there is neither |
| Routing.BuildTaskGroup | internal/navigator/builder.go:85-117 | task count and parallelism are the positive numbers that the exact variables give, else 4 and the count in distributed mode, else 1 and 0 |
| Routing.MultipleTasksRunOnBatch | internal/router/classifier.go:99-170 | several tasks, or several at a time, imply the service Cloud Batch and the complexity COMPLEX, for every order of the variables and every answer of Gemini |
| Routing.BatchExactlyWhenAsked | internal/router/classifier.go:99-157 | the deterministic service is Cloud Batch, with COMPLEX, if and only if a value found for one of the three variables asks for distribution, a machine type is named or a resource is beyond its limit; else Cloud Run with SIMPLE |
| Routing.BatchExactlyWhenAskedOrAnswered | internal/router/classifier.go:162-212 | with Gemini it is Cloud Batch if and only if distribution is asked for, the answer is COMPLEX, or the answer is unusable and the second look or the request calls for Batch |
| Routing.ReadersAgreeExactlyWhen | internal/router/classifier.go:220-264 | in every environment a distributed job has multiple tasks and no other does, if and only if not both the exact variables give a single task and a truthy flag or another spelling signals otherwise |
| Routing.OneReadingExactlyWhenSettled | internal/router/classifier.go:220-255 | all orders of the variables give the same reading if and only if some variable signals under every value a lookup may find, or none under any |
| Routing.OrderNeverDecidesExactlyWhen | internal/router/classifier.go:99-157 | all orders give the same service if and only if that holds or the machine type or resources need Batch anyway |
| Routing.GeminiAgreesExactlyWhen | internal/router/classifier.go:162-212 | Gemini's path, with its second lookup, gives the deterministic decision if and only if the job is found distributed at first, the answered tier is the one its machine type and resources call for, or the answer is unusable and they call for Batch or the second lookup finds nothing distributed |
| Routing.FallbackAgreesExactlyWhen | internal/router/classifier.go:179-185 | without an answer the decision is the deterministic one for all lookups if and only if the order of the variables can never decide |

## Left out

- Handlers.SubmitJob: leaves out the normalising and serialising of environment variables before the insert, the pause before polling, and the columns that no decision reads.
- DeleteJob and its effect on live pollers; ListJobs, GetJob and the protobuf conversions.
- Failing status writes and failing audit inserts: a write of the model always takes effect. A failing claim is modelled.
- Retries of an aborted claim transaction in module Cluster, where a claim is its last attempt; what they do to the answer is in `Jobs.ClaimedMeansOwnedExactlyWhen`.
- Leases.LeaseExcludesOthers: assumes renewals that do not ask for an earlier expiry, which Leases.PromiseKeptExactlyWhen shows to be necessary.
- Workers.WorkerService.ReconcileActiveJobLeases: nothing interferes between the listing and the claims of the pass; module Cluster interleaves them.
- Jobs.JobsTable.FailJob: leaves out the error message and completion time, which no decision reads.
- Pollers.JobPoller.constructor: leaves out which provider client the poller asks, with its fallback to the worker's own; answers are parameters of the turns.
- Deciding to leave and unregistering are one step in module Cluster, where the code has a moment in between, in which a reconcile pass finds the registration of a poller that is about to leave.
- At most one live goroutine per key is not claimed: a poller that leaves deletes its key whoever is registered there.
- The order of ListActiveJobs, its failure, and wall-clock drift between workers.
- Two gateways over one table, and an insert whose commit succeeds although an error is reported.
- Tenants.OneTenantForAll: assumes drawn ids that are not in use and one identity provider per user id; where either fails is stated exactly by the two lemmas that end in "ExactlyWhenProviderMatches" and "WhenIdIsNew".
- ByteRangeMode.LinesOverCounted: takes the configured input size, if any, to be the file's; other sizes read less or nothing.
- ByteRangeMode.WordsOverCounted: for ASCII input only, because a cut inside a multi-byte character changes both counts by the library's treatment of invalid bytes.
- Scanner errors on lines over 1 MiB, file opening and its retries, throughput and timestamps.
- Keyword counting in the accumulator, merged keyword lists (which count instances, not records) and summary texts.
- Keywords.Sort: stands for the library's sort, by insertion.
- JSON decoding, tokenising, stop words and the Gemini analyzer.
- Names and ids with non-ASCII job ids, where the code cuts bytes.
- Resource profiles, machine types and the rest of the job configuration; the texts of routing reasons.
- The CLI, the consistent-hash ring, notifications, providers, Spanner, storage and Pub/Sub clients.
