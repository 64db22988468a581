# Report generation: a verified model

The repository is a backend that turns a user's notes and uploaded files into a
PDF report. PostgreSQL is the authority: starting, retrying and cancelling a
generation, claiming it under a lease, calling paid providers, publishing the
output, moving credits, keeping asset slots and handing storage keys to cleanup
are all transactions on a few tables, run by any number of workers that crash,
stall and come back. This project models those transactions in Dafny, composes
them into one transition system and proves what holds in every run of it. It
also proves the credit-choice and time-window arithmetic, the binary inspector
for uploads and the single-use credentials of authentication.

## How the model is built

- `Rows` has the rows, keys, statuses and settings. `Credits`, `Attempts`,
  `Processing`, `Generations`, `Assets`, `Lifecycle` and `Throttle` give each
  transaction as a function from the committed rows to the rows it commits, or
  to the error it throws. Unique indexes, check constraints and foreign keys of
  the migrations are tests on commit; a transaction that throws changes nothing.
- `Protocol` is the transition system: the database, the object store, a clock,
  workers with a program counter, cleanup attempts and duplicates under way, and a history
  that no step reads except to keep identifiers fresh. One action is one
  transaction, one single statement or one call to the object store. `After`
  is the state after a sequence of actions, so a run is any such sequence.
- `LockstepLaws`, `WorkLaws`, `CreditLaws`, `LedgerLaws`, `StorageLaws`,
  `BudgetLaws`, `TimeLaws`, `SnapshotLaws`, `SlotLaws` and `OutboxLaws` each
  hold one part of the invariant and its preservation by the changes that touch
  it; `RunLaws`, `EndingLaws`, `PublicationLaws`, `StartLaws` and `ContentLaws`
  put the parts together action by action, and `Invariance` concludes that the
  invariant holds after every run. `Steps` says what one step may do to rows of
  others. `Runs` states the properties of runs in plain terms, and `Witness` gives
  a run that publishes, so that they speak of something.
- `Leases`, `Starts`, `Outcomes`, `Calls`, `Uploads`, `Contents`, `Sweeps`,
  `Charges` and `Permanence` say the other half, on the columns and without the
  functions of the transactions: when an operation does succeed, what it then
  does to which rows, and what stays. `Sessions` and `Codes` do so for tokens and
  codes, and `Verdicts` for the files that pass the tests of a confirmation.
- `Completion` and `Exhaustion` say when a generation can still be published, and
  when no run ever will.
- `Tables`, `CreditsService`, `AttemptsService`, `ProcessorService`,
  `GenerationsService`, `AssetsService`, `ReportsService` and `CleanupService`
  are the services statement by statement, over an object whose fields are the
  tables: loops, sorts, retries and roll-backs as the source has them. Each
  method is proved to end in exactly the rows that the transaction's function
  gives. `WorkerProgram` is the worker's program with its loop, its locals and
  its catch block, proved to be part of a run whatever everyone else does
  between two of its statements.
- `NearestExpiry` proves the choice of grants optimal and `ReturnedCredits` when
  it stays so although credits come back, `Inspector.dfy` holds the walkers and
  readers with encoders, `Auth`, `AuthLaws`, `AuthGuesses` and `AuthRounds` the
  credentials.

## What is assumed

- A transaction is atomic. Start and the attempt ledger ask for serializable
  isolation; the others run at the database's default, and for
  `compensateQueueFailure`, asset confirmation and asset deletion, whose reads
  and writes are not guarded together, one step is an assumption of the model.
  So it is for `completeOwned` and for the transaction that completes a
  transcription, which read the generation's row without a guard and then write
  another row; and for the transactions of refresh and of password reset, without
  which the reset's deletion could miss the row of a refresh that has not
  committed yet, and `AuthLaws.ResetEndsEveryChain` would not follow.
- An identifier that a service draws at random is fresh: it was never used for
  a row, and an upload key was never handed out before. Clocks of different
  processes agree with one monotone clock; `Auth` assumes nothing of clocks.
- Settings are positive. Provider, storage and queue answers, hash checks and
  serialization conflicts are arbitrary parameters.

## Where the code and its documents differ

- `docs/api.md` lines 414-422 allow a new generation of a completed report and
  move a started one to PROCESSING. The code refuses every status but DRAFT and
  FAILED (src/report-generation/report-generations.service.ts:282-290) and moves
  to QUEUED (lines 329-332). The model follows the code, and that is why READY
  is final and a report is charged at most once.
- The branch of `failGeneration` that returns a report with an older output to
  READY is kept in the model and proved unreachable.
- The inspector reads the rate of a WAV file from bytes 4 to 7 of the format
  chunk, the samples per second; its variable is named for bytes 8 to 11, the
  bytes per second. The model reads what the code reads. The duration it reports
  is the playing time only where both rates agree (`Riff.DurationIsPlayingTimeIff`):
  a second of 16-bit stereo is reported as four, and confirmation may refuse a
  file that plays within the limit (`Riff.LimitIsJudgedRightIff`).
- The duration of an MP3 file is the size of the whole object at the rate of its
  first frame, so a tag is counted as sound (`Mp3.DurationIsPlayingTimeIff`).
- Taking the grant that expires next is not optimal once failed and cancelled
  generations give credits back: what comes back may have expired.
  `ReturnedCredits.OptimalIffExpireTogether` says for which grants it always is,
  and `NearestExpiry.NearestExpiryIsOptimal` in which runs.
- The failure throttle holds a little tighter than two full windows: at most
  max(limit, 2*limit - 2) failures in any stretch of one window length, and the
  bound is reached. This holds exactly when the lock is longer than the window
  (`Throttle.WindowBoundIffLockOutlastsWindow`), and so does the counter's limit;
  the settings allow a shorter lock (src/config/environment.ts:260-266).
- The maximum of attempts for a registration code or a reset code bounds what is
  stored, not what is tried: requests in flight that read the same count are
  counted once. It bounds the wrong codes tried exactly where requests read one
  count one at a time (`AuthRounds.MaximumHoldsIffOneAtATime`); with k at a time,
  k times as many are tried in some run (`AuthRounds.BoundIsReached`).

## Model

| member | source | states |
|---|---|---|
| `Invariance.StepKeepsInv` | src/report-generation/report-generation-processor.service.ts:448-793 | every action of users, sweeps and workers keeps all fourteen parts of the invariant |
| `Invariance.EveryRunKeepsInv` | src/report-generation/report-generation-processor.service.ts:90-446 | the invariant holds after every sequence of actions from the empty database |
| `Witness.SomeRunPublishes` | src/report-generation/report-generation-processor.service.ts:90-390 | under every configuration some run takes a report from its creation to a published output and the READY status |
| `Completion.ActiveCanBePublished` | src/report-generation/report-generation-processor.service.ts:90-390 | from every reachable state one fresh worker alone can bring a queued or held generation to a ready report with its stored output and its consumed reservation, if moderation and report are each done or within their budget |
| `Completion.FitFinishes` | src/report-generation/report-generation-processor.service.ts:129-390 | a worker that owns its generation can go on to the publication from every place of its program at which what is left to do can be paid for |
| `Completion.StartedCanBePublished` | src/report-generation/report-generations.service.ts:175-376 | whatever a user can start can be published |
| `Exhaustion.PublishableIff` | src/report-generation/provider-attempts.service.ts:97-104 | of a queued or held generation with no such call under way, some run publishes it exactly if moderation and report are each done or within their budget |
| `Exhaustion.SpentIsFinal` | src/report-generation/provider-attempts.service.ts:72-104 | spent calls stay spent: no run completes, reopens or forgets them while the generation is there |
| `Runs.ClaimAndWriteExclude` | src/report-generation/report-generation-processor.service.ts:448-470 | a claim is possible exactly after the lease's instant and an owner's write exactly before it, so never both |
| `Runs.LossIsFinal` | src/report-generation/report-generation-processor.service.ts:804-818 | a worker that lost its generation by expiry, newer claim, retry or ending never owns it again |
| `Runs.StrangersLeaveAlone` | src/report-generation/report-generation-processor.service.ts:499-552 | no statement of a worker that does not own its generation changes reports, generations, outputs, grants, ledger, assets or another worker's object |
| `Runs.NewClaimFencesOldWorkers` | src/report-generation/report-generation-processor.service.ts:448-489 | after a claim with a new token, no later step of an earlier worker changes those tables, for any run in between |
| `Runs.ExpiredLeaseFences` | src/report-generation/report-generation-processor.service.ts:717-739 | an expired lease alone fences its worker for the rest of the run |
| `Runs.DeferredDeliveryCanClaim` | src/report-generation/report-generation-processor.service.ts:679-699 | a delivery that lost the claim is deferred to a time at which the row, if nobody renews it, can be claimed |
| `Runs.DeliveryIsDeferredIff` | src/report-generation/report-generation-processor.service.ts:679-699 | and it is deferred exactly while some worker holds the generation |
| `Leases.SecuredByColumns` | src/report-generation/report-generation-processor.service.ts:448-470 | what a lease secures: for one job timeout every guarded write of its worker finds the row its own, and up to its end no delivery can claim it, exactly for the row that is processing under its token with a lease at least that long |
| `Leases.HeartbeatSecures` | src/report-generation/report-generation-processor.service.ts:804-818 | a heartbeat of an owner secures its generation for a job timeout from now |
| `Leases.ProgressSecures` | src/report-generation/report-generation-processor.service.ts:717-739 | so does every progress update, and the program goes on |
| `Leases.ResultSecures` | src/report-generation/report-generation-processor.service.ts:741-793 | so does storing a result, which is exactly what the provider wrote, with the completion of its call |
| `Leases.DeliverySecuresIff` | src/report-generation/report-generation-processor.service.ts:448-489 | so does a delivery, exactly if the generation is queued or its lease has run out; any other changes no row |
| `Leases.ClaimStays` | src/report-generation/report-generation-processor.service.ts:448-489 | until its lease runs out nothing but its own publication or recovery takes a generation from its worker |
| `Leases.RenewingInTimeKeepsOwnership` | src/report-generation/report-generation-processor.service.ts:108-121 | a worker that always renews within a job timeout owns its generation at every moment of the run, whatever everyone else does, and nobody can claim it |
| `Permanence.RowsArePermanent` | src/report-generation/report-generation-processor.service.ts:136-142 | over a run a generation never changes its report, user, key, snapshot, creation time or the status it will go back to, and a stored result stays what it is |
| `Permanence.CancellationRestoresStatus` | src/report-generation/report-generations.service.ts:140-160 | a cancellation, however long after the start, puts the report back to the status that it had before that start |
| `Runs.CreditsAreConserved` | src/entitlements/credits.service.ts:17-63 | in every run each grant's remaining credits plus its unreleased reservations make up its total, and remaining stays between 0 and total |
| `Runs.LedgerFollowsGenerations` | src/entitlements/credits.service.ts:149-221 | every generation ever started has its reservation; active ones no terminal row, completed ones only CONSUME, failed, cancelled and compensated ones only RELEASE |
| `Runs.OneChargePerReport` | src/report-generation/report-generations.service.ts:282-290 | at most one reservation is ever consumed for a report |
| `Runs.MachinesAgree` | src/report-generation/report-generation-processor.service.ts:523-551 | a report is QUEUED, PROCESSING or READY exactly while one of its generations is queued, processing or completed, READY exactly while it has an output, and each time there is only one such generation |
| `Runs.PriorStatusIsEditable` | src/report-generation/report-generations.service.ts:317-327 | the status kept for going back is always DRAFT or FAILED |
| `Runs.FailureNeverFindsOutput` | src/report-generation/report-generation-processor.service.ts:651-659 | a report whose generation is owned has no output, so a failure never takes the READY branch |
| `Runs.ReadyUntilDeleted` | src/report-generation/report-generation-processor.service.ts:542-550 | a ready report keeps its whole row and its whole output until it is deleted |
| `Runs.FailuresAreRecorded` | src/report-generation/report-generation-processor.service.ts:594-665 | the failure history used below gains the current time exactly when a generation of the report fails for good |
| `Runs.ThrottleBoundsFailures` | src/report-generation/report-generation-processor.service.ts:633-650 | with a lock longer than the window, no stretch of one window holds more than max(limit, 2*limit - 2) failures of a report, and one that holds so many ends in a lock |
| `Runs.LockLasts` | src/report-generation/report-generations.service.ts:561-578 | a lock is never cleared or moved before it expires and no generation of the report is active meanwhile |
| `Runs.StartsStayWithinLimits` | src/report-generation/report-generations.service.ts:410-454 | at every moment, for every closed interval of the window length, the surviving generations created in it are within the per-user and global limits |
| `Starts.RateLimitedIff` | src/report-generation/report-generations.service.ts:410-454 | a request that passes every other test is rate limited exactly when the user's own starts of the window or of the day, or everyone's of the day, are as many as allowed |
| `Starts.OthersCountOnlyGlobally` | src/report-generation/report-generations.service.ts:427-442 | what others started matters only through the limit on everyone |
| `Starts.StartTakesPlaceIff` | src/report-generation/report-generations.service.ts:175-376 | in every reachable state a new request starts a generation exactly when verified user, report, lock, sources and counts allow it and some grant can pay; it is queued with what the report says, can be claimed at once and is paid by the first grant in order |
| `Runs.PaidWorkIsDoneOnce` | src/report-generation/report-generation-processor.service.ts:190-335 | at most one completed attempt per operation, a stored result exactly when report generation completed, and an output only after moderation completed |
| `Runs.CallsStayWithinBudget` | src/report-generation/provider-attempts.service.ts:40-121 | stored attempts of a scope never exceed the maximum, at most one is started, and those of a generation carry exactly the numbers 1 to n |
| `Runs.AuthorisedCallsAreKept` | src/report-generation/provider-attempts.service.ts:105-118 | while a generation exists none of its attempts is forgotten, so the budget bounds all that were ever authorised |
| `Calls.ModelCallsAreAnswered` | src/report-generation/provider-attempts.service.ts:40-121 | in every reachable state a moderation or report call is refused exactly while one is in progress, refused for good exactly when the maximum was made, and otherwise authorised under the next number until the deadline, which closes what was started before |
| `Calls.TranscriptionIsAnswered` | src/report-generation/provider-attempts.service.ts:42-48 | a transcription likewise, counted by its asset over all generations |
| `Calls.AnswerRecordedIff` | src/report-generation/provider-attempts.service.ts:140-196 | an answer completes exactly its own started call, while the worker owns the generation and before the call's lease ends, or changes no row |
| `Calls.NoAnswerLeads` | src/report-generation/asset-transcriptions.service.ts:134-170 | without an answer the worker goes on to close its call, but for a transcription of a generation that it lost |
| `Calls.FailedCallIsClosed` | src/report-generation/provider-attempts.service.ts:198-226 | a failed call of this worker is closed and nothing else |
| `Calls.ClosedCallUnblocks` | src/report-generation/provider-attempts.service.ts:62-72 | from then on another call of the generation is authorised exactly while the budget lasts |
| `Runs.StartIsIdempotent` | src/report-generation/report-generations.service.ts:195-228 | each user, report and key has at most one generation row and at most one unreleased reservation, over starts, lost acknowledgements and compensations |
| `Runs.SnapshotIsCurrent` | src/report-generation/report-generations.service.ts:291-316 | from start to end a generation's snapshot has the live report's title, notes and assets, all of them ready |
| `Runs.SnapshotOrderIsCurrent` | src/report-generation/report-generations.service.ts:299-311 | every listing of the snapshot by position is every listing of the live report by position, and positions rise strictly |
| `Runs.SlotsStayWithinLimits` | src/report-assets/report-assets.service.ts:391-479 | ready assets and unexpired uploads stay within count and byte limits and have different positions |
| `Uploads.LimitsHold` | src/report-assets/report-assets.service.ts:391-479 | the same written out: of each kind, in bytes and by position, over ready assets and uploads no older than their lifetime |
| `Uploads.RequestAcceptedIff` | src/report-assets/report-assets.service.ts:391-479 | an upload is accepted exactly for an editable report of its user with room for its kind and bytes; the row is pending as declared and behind everything that counts |
| `Uploads.ConfirmedIff` | src/report-assets/report-assets.service.ts:108-253 | an upload becomes ready, with the size of its object, exactly if the report is its user's and editable, it is no older than its lifetime, its object is there in the declared size, not empty, and passes the inspection |
| `Uploads.ExpiredIffTooLate` | src/report-assets/report-assets.service.ts:335-373 | the cleanup rejects exactly the pending uploads that no confirmation could make ready any more |
| `Uploads.UploadSucceeds` | src/report-assets/report-assets.service.ts:51-253 | requesting with room, storing and confirming within the lifetime ends in a ready asset of the declared size, next to all others |
| `Uploads.AssetDeletedIff` | src/report-assets/report-assets.service.ts:287-322 | an asset is deleted exactly from an editable report of its user: its key becomes a task, its transcription calls go, all else stays |
| `Uploads.WithdrawnIff` | src/report-assets/report-assets.service.ts:51-106 | an upload without a contract leaves no row |
| `Uploads.RejectedIff` | src/report-assets/report-assets.service.ts:547-569 | a rejection flips a pending upload and nothing else |
| `Runs.OutputsStayStored` | src/report-generation/report-generation-processor.service.ts:367-407 | a published output always has its object with the recorded size, and its key is in no task and no cleanup attempt |
| `Runs.EveryKeyIsAccountedFor` | src/reports/reports.service.ts:246-299 | a key that an output or an issued upload ever had is in a live row, in a task, or was deleted; keys of live rows are among them |
| `Runs.TasksLeaveAfterDeletion` | src/storage/storage-cleanup.service.ts:46-51 | a task leaves only in the cleanup attempt whose deletion succeeded |
| `Sweeps.TaskIsDone` | src/storage/storage-cleanup.service.ts:46-51 | an answered attempt for a task leaves neither its object nor the task, and every other object as it was |
| `Sweeps.NoTaskNoSweep` | src/storage/storage-cleanup.service.ts:34-51 | no step of an attempt does anything without the one before it |
| `Sweeps.HandedOver` | src/storage/storage-cleanup.service.ts:15-26 | the keys of refused copies and rejected uploads are tasks, under their first attempt |
| `Sweeps.UnpublishedIsHandedOver` | src/report-generation/report-generation-processor.service.ts:391-446 | so is the key of an upload that its worker could not publish; a worker that lost its claim stops there |
| `Contents.ReportIsCreated` | src/reports/reports.service.ts:49-59 | a new report is a draft with the title and notes that were sent and a clear throttle |
| `Contents.ReportUpdatedIff` | src/reports/reports.service.ts:100-130 | title and notes are what was sent, exactly for an editable report of its user; nothing else changes |
| `Contents.StartReadsTheUpdate` | src/report-generation/report-generations.service.ts:291-329 | a generation that starts after an update works on the title and the notes of that update |
| `Contents.SourceReadIff` | src/reports/reports.service.ts:132-167 | a report can be duplicated exactly by its user while it is ready; its notes and its ready assets are read |
| `Contents.Duplicated` | src/reports/reports.service.ts:196-226 | a duplicate is a draft with the notes that were read and a copy of each asset that was read, in kind, type, sizes and position, and changes no other row |
| `Contents.DeletedIff` | src/reports/reports.service.ts:246-299 | a report is deleted exactly by its user while no generation of it is active: exactly its rows go, its keys become tasks, its ledger rows stay without their generation |
| `StartLaws.CompensationUndoesStart` | src/report-generation/report-generations.service.ts:506-536 | a start whose enqueueing fails is undone: every table is as before but for two settled ledger rows |
| `Outcomes.OpenReservationsSettle` | src/entitlements/credits.service.ts:149-221 | an open reservation can always be consumed, and can always be released: its grant gets the one credit back |
| `Outcomes.OwnerPublishes` | src/report-generation/report-generation-processor.service.ts:491-553 | in every reachable state an owner that has uploaded can publish: one output with its key and size, report ready with a clear throttle, generation completed, reservation consumed |
| `Outcomes.OwnerRetries` | src/report-generation/report-generation-processor.service.ts:555-592 | an owner's retry puts the generation back into the queue, where it can be claimed at once, and keeps its credit |
| `Outcomes.OwnerFails` | src/report-generation/report-generation-processor.service.ts:594-665 | in every reachable state an owner's failure fails the generation and the report and gives the credit back |
| `Outcomes.QueuedCancels` | src/report-generation/report-generations.service.ts:124-171 | in every reachable state a user can cancel exactly the queued generations of the report that are theirs; report and credit go back |
| `Outcomes.QueuedIsCompensated` | src/report-generation/report-generations.service.ts:506-536 | in every reachable state a compensation removes exactly a generation that is still queued, with its calls, and gives back status and credit |
| `Outcomes.MarkedIff` | src/report-generation/report-generations.service.ts:486-496 | exactly a queued generation is marked as enqueued, and nothing else changes |
| `StartLaws.ReserveThenRelease` | src/entitlements/credits.service.ts:189-221 | releasing a fresh reservation always succeeds and restores the grants |
| `CreditLaws.ReserveConserves` | src/entitlements/credits.service.ts:17-63 | a reservation keeps conservation and the shape of the ledger |
| `CreditLaws.ConsumeConserves` | src/entitlements/credits.service.ts:149-181 | so does a consumption, in whatever state the generation is |
| `CreditLaws.ReleaseConserves` | src/entitlements/credits.service.ts:189-221 | so does a release, also for a generation whose rows were detached; it writes only where nothing terminal was |
| `CreditLaws.AllocateConserves` | src/entitlements/credits.service.ts:90-141 | so does a monthly allocation, once per period |
| `CreditLaws.DetachConserves` | prisma/migrations/20260729020000_add_ai_report_generation/migration.sql:191 | so does nulling the generation column when generations are deleted |
| `CreditLaws.TerminalByKey` | src/entitlements/credits.service.ts:237-254 | for a generation that exists the lookup by column finds exactly the terminal row that the keys show |
| `LockstepLaws.MoveKeepsLockstep` | src/report-generation/report-generation-processor.service.ts:560-591 | a move of one active generation together with its report keeps the three machines in lockstep |
| `LockstepLaws.PublicationKeepsLockstep` | src/report-generation/report-generation-processor.service.ts:499-552 | so does a publication |
| `LockstepLaws.CompensationKeepsLockstep` | src/report-generation/report-generations.service.ts:506-536 | so does a compensation |
| `LockstepLaws.DeletionKeepsLockstep` | src/reports/reports.service.ts:246-299 | so does deleting a report, which keeps every other output |
| `BudgetLaws.StartKeepsBudget` | src/report-generation/provider-attempts.service.ts:31-121 | authorising a call keeps budget, single start and numbering, whatever is stale or spent |
| `TimeLaws.StartKeepsRolling` | src/report-generation/report-generations.service.ts:410-454 | a start within the counted limits keeps them for every interval |
| `TimeLaws.FailureKeepsThrottle` | src/report-generation/report-generation-processor.service.ts:633-659 | a failure of an unlocked report extends its history admissibly, and the columns follow it |
| `SnapshotLaws.OrderIsDetermined` | src/report-generation/report-generations.service.ts:299-311 | with distinct positions there is only one list of the snapshot's assets ordered by position |
| `SlotLaws.RequestKeepsSlots` | src/report-assets/report-assets.service.ts:391-479 | a new upload within the limits, past the largest position, keeps the slots |
| `SlotLaws.NoNewSlotKeepsSlots` | src/report-assets/report-assets.service.ts:216-230 | time, confirmation, rejection, expiry, withdrawal and deletion keep them |
| `SlotLaws.DuplicateKeepsSlots` | src/reports/reports.service.ts:199-223 | a duplicate's slots fit because those of the source fitted when they were read, even if the source is gone |
| `SlotLaws.ReadSourceFits` | src/reports/reports.service.ts:133-156 | what duplicate reads of a source fits the limits by itself |
| `Throttle.RecordMeaning` | src/report-generation/report-generation-processor.service.ts:633-650 | what the three columns mean in terms of the failure times |
| `Throttle.FailuresInAnyWindow` | src/report-generation/report-generation-processor.service.ts:633-650 | the bound on failures in any stretch of one window, and the lock that ends a full one |
| `Throttle.BoundIsReached` | src/report-generation/report-generation-processor.service.ts:633-650 | the bound is attained for every limit |
| `Throttle.CounterBoundIffLockOutlastsWindow` | src/report-generation/report-generation-processor.service.ts:643-650 | the counter stays within the limit in every history exactly when the lock is longer than the window |
| `Throttle.ShortLockOverflows` | src/report-generation/report-generation-processor.service.ts:643-650 | with a shorter lock a history exceeds it |
| `Throttle.WindowBoundIffLockOutlastsWindow` | src/report-generation/report-generation-processor.service.ts:633-650 | every stretch of one window length stays within the bound in every history exactly when the lock is longer than the window |
| `Throttle.ShortLockOverfills` | src/report-generation/report-generation-processor.service.ts:643-650 | with a shorter lock, for every limit and window, a history has a stretch that exceeds it |
| `NearestExpiry.NearestExpiryIsOptimal` | src/entitlements/credits.service.ts:256-287 | with grants arriving and credits coming back, reserve never runs out exactly when some assignment of requests to grants usable at their times exists, for every run in which a grant that gets a credit back is open whenever a grant is that could have been taken in its place |
| `NearestExpiry.Exchange` | src/entitlements/credits.service.ts:256-287 | the exchange: whatever an assignment does with one more sooner credit, another does with one more later credit, through returns of either |
| `ReturnedCredits.OptimalWithoutReturns` | src/entitlements/credits.service.ts:256-287 | in particular, without returned credits |
| `ReturnedCredits.OptimalIfReturnsStayOpen` | src/entitlements/credits.service.ts:189-221 | and in every run in which each grant credited back is unexpired at every later request of its user |
| `ReturnedCredits.ReturnsBreakOptimality` | src/entitlements/credits.service.ts:189-221 | without such a condition it fails, by a run of two grants and three requests in which a credit comes back too late |
| `ReturnedCredits.OptimalIffExpireTogether` | src/entitlements/credits.service.ts:256-302 | a set of grants serves every run that some assignment serves, whatever is given back, exactly when grants of one user that are open at a common time expire together |
| `NearestExpiry.ReserveTakesTheBest` | src/entitlements/credits.service.ts:31-63 | reserve reports exhaustion exactly when no grant is usable and otherwise takes one credit of the first in order |
| `NearestExpiry.AvailableCountsReservations` | src/entitlements/entitlements.service.ts:44-71 | the available credits shown are the number of reservations that would succeed in a row |
| `NearestExpiry.CanGenerateIffReserves` | src/entitlements/entitlements.service.ts:66-71 | canGenerate is true exactly when reserve would find a grant |
| `Charges.ReservationChargesFirst` | src/entitlements/credits.service.ts:31-63 | on the rows before and after: the grant that loses a credit comes before every other grant that could pay, by expiry, then by source in the order of the list, then by age, then by identifier |
| `Charges.PrecedenceIsStrict` | src/entitlements/credits.service.ts:256-302 | that order, written out on the columns, is strict and total, so there is one such grant |
| `Charges.PeriodGivesOnce` | src/entitlements/credits.service.ts:90-141 | an allocation gives the user one monthly grant with these credits and dates, once per period |
| `Charges.AdminGivesOnce` | src/cli/grant-generation-credits.ts:56-86 | an administrative grant gives these credits without expiry, once per key |
| `Charges.ShownBySource` | src/entitlements/entitlements.service.ts:54-65 | the monthly and purchased numbers shown count the credits of those sources |
| `CreditsService.Sort` | src/entitlements/credits.service.ts:43-43 | the candidates are rearranged into the order of the comparator |
| `CreditsService.TakeFirst` | src/entitlements/credits.service.ts:45-63 | the loop decrements the first candidate that has a credit, or none |
| `CreditsService.Reserve` | src/entitlements/credits.service.ts:17-88 | query, sort and loop end in the rows of the reservation function, or throw its error |
| `CreditsService.Consume` | src/entitlements/credits.service.ts:149-181 | ends in the rows of the consumption function |
| `CreditsService.Release` | src/entitlements/credits.service.ts:189-221 | ends in the rows of the release function |
| `AttemptsService.Start` | src/report-generation/provider-attempts.service.ts:31-121 | the loop over stale attempts and the budget test end in the function's rows; running out undoes the closing |
| `AttemptsService.Complete` | src/report-generation/provider-attempts.service.ts:167-196 | completes only a started attempt of the same token before its lease ends |
| `AttemptsService.CompleteOwned` | src/report-generation/provider-attempts.service.ts:140-165 | and only for the generation's owner |
| `AttemptsService.Fail` | src/report-generation/provider-attempts.service.ts:198-226 | closes only a started attempt of the same token |
| `ProcessorService.Claim` | src/report-generation/report-generation-processor.service.ts:448-489 | claims a queued or expired generation with its report, and changes nothing otherwise |
| `ProcessorService.Renew` | src/report-generation/report-generation-processor.service.ts:804-818 | extends the lease of an owned generation only |
| `ProcessorService.PersistReportResult` | src/report-generation/report-generation-processor.service.ts:741-793 | stores a result together with the completion of its attempt, or neither |
| `ProcessorService.FinalizeSuccess` | src/report-generation/report-generation-processor.service.ts:491-553 | output, generation, report and consumption commit together or not at all |
| `ProcessorService.PrepareRetry` | src/report-generation/report-generation-processor.service.ts:555-592 | returns an owned generation and its report to the queue |
| `ProcessorService.FailGeneration` | src/report-generation/report-generation-processor.service.ts:594-665 | generation, throttle columns and release commit together or not at all |
| `GenerationsService.Refusal` | src/report-generation/report-generations.service.ts:257-293 | what is thrown is named by the first test that fails, and nothing is thrown exactly when all are passed |
| `GenerationsService.StartThrowsFirstFailure` | src/report-generation/report-generations.service.ts:257-293 | the transaction of start throws that error, and gets to its writes exactly when there is none |
| `GenerationsService.Start` | src/report-generation/report-generations.service.ts:175-376 | up to three serializable tries under one id end in the rows of one start, or leave no trace |
| `GenerationsService.Cancel` | src/report-generation/report-generations.service.ts:124-171 | cancels a queued generation with its report and its reservation, or nothing |
| `GenerationsService.CompensateQueueFailure` | src/report-generation/report-generations.service.ts:506-536 | ends in the rows of the compensation function |
| `GenerationsService.EnsureEnqueued` | src/report-generation/report-generations.service.ts:456-504 | marks the row if the queue answers and the mark can be stored, and undoes the start if the queue does not answer |
| `AssetsService.ReservedBytes` | src/report-assets/report-assets.service.ts:440-444 | the reduce computes the total over the active assets |
| `AssetsService.MaximumPosition` | src/report-assets/report-assets.service.ts:451-455 | the reduce computes the largest position, -1 without any |
| `AssetsService.CreatePendingAssetWithinLimits` | src/report-assets/report-assets.service.ts:391-493 | up to three tries under one asset id end in the rows of one request |
| `AssetsService.Confirm` | src/report-assets/report-assets.service.ts:108-253 | the tests in their order end in the rows of one confirmation: ready only if the store answers and the object passes every test on size, type, dimensions and duration |
| `AssetsService.Delete` | src/report-assets/report-assets.service.ts:287-322 | the key becomes a task in the transaction that deletes the row |
| `AssetsService.RejectUpload` | src/report-assets/report-assets.service.ts:547-569 | the key is deleted or a task when the status flips, and if the task cannot be stored nothing changes |
| `AssetsService.CleanupExpiredPendingUploads` | src/report-assets/report-assets.service.ts:335-373 | exactly the expired uploads whose key can be stored as a task are rejected, and those keys are deleted or left as tasks |
| `ReportsService.Update` | src/reports/reports.service.ts:100-130 | changes title and notes of an editable report only |
| `ReportsService.Delete` | src/reports/reports.service.ts:246-324 | up to three tries delete the report with all that cascades; every key is deleted or a task |
| `ReportsService.CopyObjects` | src/reports/reports.service.ts:185-195 | the copying loop touches only new keys and reports those it made, but for one that was made and could not be looked up |
| `ReportsService.ReadRows` | src/reports/reports.service.ts:133-167 | reads the notes and the ready assets of a ready report of its user, or refuses |
| `ReportsService.CopyAndCreate` | src/reports/reports.service.ts:169-244 | from what was read, whatever has become of the source since: either the new report holds every copy, or no report changes and every copy that was reported is deleted or a task, if tasks can be stored |
| `CleanupService.Attempt` | src/storage/storage-cleanup.service.ts:46-71 | the task goes only after the object and stays if either cannot be removed; storing the count of a failure throws exactly if there is no task |
| `CleanupService.RetryPending` | src/storage/storage-cleanup.service.ts:34-44 | of the tasks by age the first up to the limit are tried, and exactly the deleted ones go |
| `CleanupService.AttemptMany` | src/storage/storage-cleanup.service.ts:28-32 | every key is tried, exactly the answered objects and cleared tasks go, and it throws exactly if one try does |
| `WorkerProgram.Process` | src/report-generation/report-generation-processor.service.ts:90-446 | the program ends, leaves no pending upload behind, and is part of one run with everyone else's actions in between; undisturbed in any reachable state, with calls left to pay for and willing providers, it has published |
| `WorkerProgram.Transcribe` | src/report-generation/report-generation-processor.service.ts:143-168 | the audio loop ends past the last asset or at its first error |
| `WorkerProgram.Catch` | src/report-generation/report-generation-processor.service.ts:391-409 | an unpublished upload is a cleanup task after the catch block |
| `Inspector.ReadersInvertEncoders` | src/report-assets/asset-file-inspector.ts:327-350 | every integer reader inverts its encoding wherever it stands |
| `Inspector.SynchsafeInverts` | src/report-assets/asset-file-inspector.ts:352-356 | so does the synchsafe reader, which joins groups of seven bits |
| `Inspector.ReadersJoinBits` | src/report-assets/asset-file-inspector.ts:327-350 | the sums that the readers compute are the words joined of shifted bytes |
| `Inspector.FieldsAreMasked` | src/report-assets/asset-file-inspector.ts:196-200 | the 14-bit fields are what shift and mask cut out |
| `Bits.JoinIsSum` | src/report-assets/asset-file-inspector.ts:327-350 | a number joined with one shifted past its digits is their sum |
| `Bits.MaskIsRemainder` | src/report-assets/asset-file-inspector.ts:209-210 | a mask of ones leaves the remainder |
| `Jpeg.ReadDimensions` | src/report-assets/asset-file-inspector.ts:141-180 | the loop ends and returns what the walk finds |
| `Jpeg.WalkFindsFrame` | src/report-assets/asset-file-inspector.ts:141-180 | for any segments without a frame header, then a frame header, then anything, the walk returns that header's size |
| `Jpeg.DimensionsIffFrameInspected` | src/report-assets/asset-file-inspector.ts:158-161 | of a file cut anywhere, the walk returns the size exactly when the frame header is whole |
| `Jpeg.WalkReturnsAFrame` | src/report-assets/asset-file-inspector.ts:163-174 | for arbitrary bytes a returned size stands in a frame segment that lies fully inside |
| `Riff.ReadDuration` | src/report-assets/asset-file-inspector.ts:218-241 | the loop ends and computes the quotient of what the walk finds |
| `Riff.WalkSkips` | src/report-assets/asset-file-inspector.ts:226-238 | for any chunks before a data chunk the walk lands on every padded boundary and remembers what the last format chunk set |
| `Riff.RateIsSamplesPerSecond` | src/report-assets/asset-file-inspector.ts:230-231 | if the last format chunk holds eight bytes or more, the remembered value is its samples per second |
| `Riff.DurationIsPlayingTimeIff` | src/report-assets/asset-file-inspector.ts:230-240 | the reported duration is the playing time, sound bytes by average bytes per second, exactly when both rates are equal, there is no format chunk, or there is no sound at rates other than zero |
| `Riff.DurationIsStretchedByAlignment` | src/report-assets/asset-file-inspector.ts:230-240 | with bytes per second that are samples times a block alignment, the reported duration is that many times the playing time |
| `Riff.StereoSecondIsReportedAsFour` | src/report-assets/asset-file-inspector.ts:230-240 | a second of 16-bit stereo at 44100 samples is reported as four seconds |
| `Riff.LimitIsJudgedRightIff` | src/report-assets/report-assets.service.ts:205-214 | the test against the longest allowed duration decides as on the playing time exactly when the sound bytes are above both limits or above neither |
| `Riff.WalkStopsAtData` | src/report-assets/asset-file-inspector.ts:232-235 | it stops at the first data chunk and caps its size at the object's end |
| `Riff.WalkWithoutData` | src/report-assets/asset-file-inspector.ts:240-240 | without a data chunk there is no duration |
| `FixedHeaders.PngRoundTrip` | src/report-assets/asset-file-inspector.ts:28-35 | the PNG size is read back |
| `FixedHeaders.ExtendedRoundTrip` | src/report-assets/asset-file-inspector.ts:187-192 | section 2.7 of RFC 9649: canvas size minus one in 24 bits each |
| `FixedHeaders.LosslessRoundTrip` | src/report-assets/asset-file-inspector.ts:194-200 | section 3 of RFC 9649: size minus one in 14 bits each, whatever the other four bits |
| `FixedHeaders.LossyRoundTrip` | src/report-assets/asset-file-inspector.ts:202-213 | 14 bits of size each, whatever the scale bits |
| `FixedHeaders.ShortRoundTrip` | src/report-assets/asset-file-inspector.ts:294-316 | a version 0 movie header is read back, given one byte behind it |
| `FixedHeaders.LongRoundTrip` | src/report-assets/asset-file-inspector.ts:300-313 | a version 1 movie header with a 64-bit duration is read back |
| `Mp3.ReadDuration` | src/report-assets/asset-file-inspector.ts:247-272 | the loop ends and computes the quotient of the whole object's size and the rate of the first header behind the tag |
| `Mp3.TagIsSkipped` | src/report-assets/asset-file-inspector.ts:251-269 | whatever a tag holds, the frame header behind it decides, and without a tag the one at the start |
| `Mp3.SyncIsMasked` | src/report-assets/asset-file-inspector.ts:243-254 | the comparison of the second byte is the test of its three upper bits |
| `Mp3.FieldsAreMasked` | src/report-assets/asset-file-inspector.ts:255-257 | version, layer and bit rate index are what shift and mask cut out |
| `Mp3.DurationIsPlayingTimeIff` | src/report-assets/asset-file-inspector.ts:262-265 | for sound of a constant rate the reported duration is the playing time exactly when the object holds nothing but sound: a tag's bytes are counted |
| `Inspection.DetectM4a` | src/report-assets/asset-file-inspector.ts:274-292 | the loop finds an audio brand exactly when the major or an aligned compatible brand is one |
| `Inspection.JpegIsInspected` | src/report-assets/asset-file-inspector.ts:15-26 | an encoded JPEG is reported as one, with its size |
| `Inspection.PngIsInspected` | src/report-assets/asset-file-inspector.ts:28-35 | an encoded PNG is reported as one, with its size |
| `Inspection.WavIsInspected` | src/report-assets/asset-file-inspector.ts:46-52 | an encoded WAV is reported as one, with its quotient |
| `Inspection.WebpIsInspected` | src/report-assets/asset-file-inspector.ts:37-44 | an encoded WebP with an extended header is reported as one, with its size |
| `Inspection.LosslessIsInspected` | src/report-assets/asset-file-inspector.ts:37-44 | so is a lossless one |
| `Inspection.LossyIsInspected` | src/report-assets/asset-file-inspector.ts:37-44 | and a lossy one |
| `Inspection.Mp3IsInspected` | src/report-assets/asset-file-inspector.ts:54-60 | a tagged or untagged MP3 is reported as one, with that duration |
| `Inspection.M4aIsInspected` | src/report-assets/asset-file-inspector.ts:62-68 | a file-type box with an audio brand is reported as M4A audio, with the duration of its first movie header |
| `Inspection.LongM4aIsInspected` | src/report-assets/asset-file-inspector.ts:300-313 | so is one whose movie header has 64-bit times |
| `Verdicts.PngPassesIff` | src/report-assets/report-assets.service.ts:166-203 | an encoded PNG passes the tests of confirmation exactly when it was declared as one, in its size, and width and height are within the limits |
| `Verdicts.JpegPassesIff` | src/report-assets/report-assets.service.ts:166-203 | so does a JPEG by its first frame |
| `Verdicts.WebpPassesIff` | src/report-assets/report-assets.service.ts:166-203 | and a WebP by its canvas |
| `Verdicts.M4aPassesIff` | src/report-assets/report-assets.service.ts:205-214 | an M4A file exactly when its movie is no longer than the limit |
| `Verdicts.Mp3PassesIff` | src/report-assets/report-assets.service.ts:205-214 | a tagged MP3 exactly when the whole object, at the rate of its first frame, is no longer than the limit |
| `AuthLaws.CountersStayWithinMaximum` | src/auth/auth.service.ts:877-907 | stored attempt counts never exceed their maximum; an address has one registration and one user |
| `AuthGuesses.WrongTriesAreBounded` | src/auth/auth.service.ts:877-907 | from the storing of a code on, of a registration or of a password reset, at most k wrong codes for each of the maximum counts are tried against it, k being the most requests in flight that read the count stored at one time |
| `AuthRounds.BoundIsReached` | src/auth/auth.service.ts:877-907 | for every k and either kind of code a run from the empty database tries exactly k times the maximum of wrong codes, with never more than k such requests |
| `AuthRounds.MaximumHoldsIffOneAtATime` | src/auth/auth.service.ts:877-907 | the configured maximum bounds the wrong codes of every run exactly when k is at most one |
| `AuthRounds.ManyTriesMayCountAsOne` | src/auth/auth.service.ts:877-907 | for every n a run tries n wrong codes of which one is counted |
| `AuthLaws.UserNeedsTheCurrentCode` | src/auth/auth.service.ts:298-325 | a user is created only from a registration that is there, by a code that verifies against its hash at commit |
| `AuthLaws.OneUserPerRegistration` | src/auth/auth.service.ts:287-335 | no registration yields two users, however requests interleave |
| `Codes.RegistersIff` | src/auth/auth.service.ts:88-174 | a registration opens exactly for an address that nobody has and no open registration has, as the only one, with the hash of its code, no attempt counted and both lifetimes from now |
| `Codes.ResendsIff` | src/auth/auth.service.ts:364-446 | a new code replaces the old one exactly in an open registration whose cooldown is over; count and code lifetime begin again, the registration's does not |
| `Codes.UnsentCodeIsDead` | src/auth/auth.service.ts:909-922 | a code that could not be sent cannot be tried at any later time, unless a newer one has replaced it |
| `Codes.TriedIff` | src/auth/auth.service.ts:243-270 | a code is tried exactly while registration and code have not expired and the count is below the maximum |
| `Codes.VerifiedIff` | src/auth/auth.service.ts:272-335 | a tried code creates the user of the address with a first token exactly if it is right, nobody has the address and the row still has that code and may be tried |
| `Codes.WrongCodeCountsIff` | src/auth/auth.service.ts:877-907 | a wrong code counts exactly while the row is as it was read and open, and the last one ends the code |
| `Codes.RegistrationSucceeds` | src/auth/auth.service.ts:88-335 | registering and sending back the right code within both lifetimes creates the user, whose first token is live |
| `AuthLaws.TokenRotatesOnce` | src/auth/auth.service.ts:520-537 | no refresh token rotates twice |
| `Sessions.IssuedTokenIsAccepted` | src/auth/auth.service.ts:507-537 | a token that a login, a verified registration or a refresh handed out is accepted, after any run in which its row stays, exactly from its user, as what was handed out, and within its lifetime |
| `Sessions.BeginsIff` | src/auth/auth.service.ts:501-514 | a refresh goes on exactly for a stored, unexpired row of the user whose hash verifies what is presented |
| `Sessions.ExchangedIff` | src/auth/auth.service.ts:520-537 | it then replaces the old row, exactly if that is still the user's, by one with the hash of the new token and a new lifetime |
| `Sessions.TokenLivesUnlessEnded` | src/auth/auth.service.ts:520-562 | a live token ends exactly by its exchange, its logout or a password reset of its user |
| `Sessions.LoginIssues` | src/auth/auth.service.ts:485-499 | a login stores a row of the user with the hash of its token and a lifetime from now |
| `AuthLaws.ResetIsSingleUse` | src/auth/auth.service.ts:696-710 | no reset request changes the password twice |
| `Codes.ForgottenIff` | src/auth/auth.service.ts:564-612 | a reset request is made exactly once the cooldown since each earlier one is over, as the only unused one of its user |
| `Codes.UnsentResetIsDead` | src/auth/auth.service.ts:639-650 | so is a reset request whose code could not be sent |
| `Codes.ResetIff` | src/auth/auth.service.ts:653-730 | a reset changes the password exactly if the code is right and the request unused, unexpired and below the maximum; it uses up every request and ends every token of the user |
| `Codes.WrongResetCountsIff` | src/auth/auth.service.ts:847-875 | a wrong reset code counts exactly while the request is unused, open and counts what was read; the last one uses it up |
| `Codes.ResetSucceeds` | src/auth/auth.service.ts:564-730 | asking for a code and sending back the right one in time changes the password |
| `AuthLaws.ResetEndsEveryChain` | src/auth/auth.service.ts:712-727 | after a reset no token of a chain begun before it is live or accepted, not even for a refresh that had read it |

## Left out

- Liveness of the queue: stalled jobs, redelivery and endless deferral are decided by BullMQ; the model says when a generation can still be published, not that it will be.
- Removing a job from the queue before a cancellation, and the configuration switch that disables generation.
- Transcription rows and the text they hold; their attempts are modelled, and a worker may skip a call for a finished one at will.
- Columns that no decision reads: stage, progress, error code and message, delivery count, provider usage, timestamps of completion.
- A snapshot's assets are a map from ids with positions in the rows; `Runs.SnapshotOrderIsCurrent` speaks of the ordered list.
- Orphaned objects after a crash between upload and publication, after a late client upload, or after a copy whose verification failed: the code does not promise to find them.
- Whether a ready asset keeps its object: rejection and expiry may race with a confirmation, and the object store is modelled for asset keys as changing at will.
- Ownership of `attempts.start` and of the transcription upsert: the code does not test it, so fencing does not cover those rows.
- Deleting a user with all that cascades.
- PDF rendering, e-mail, file names, titles of duplicates, controllers and validation of requests.
- Subscriptions in the entitlements response and the choice between the two error codes of an exhausted reservation.
- The content of ZIP archives, and plain text against CSV: heuristics without a format to prove against. Floating-point rounding of durations. MP3 files of a varying bit rate, and headers whose rates the reader's second table does not list.
- Choosing the latest reset request of a user: the model lets a request read any of them. A login that checked the old password and stores its token after a reset begins a new chain.
- AssetsService.Confirm: takes the checks and the status change as one step.
- AssetsService.Delete: takes the status check and the deletion as one step.
- ProcessorService.Renew: the stage and progress that updateProgress also writes are not modelled.
- CreditsService.Reserve: the two errors of an exhausted reservation are one, because subscriptions are not modelled.
- GenerationsService.Cancel: the job is not removed from the queue first, because the queue is not modelled.
- AssetsService.CreatePendingAssetWithinLimits: as for GenerationsService.Start, the rows do not change between two tries.
- ReportsService.Delete: as for GenerationsService.Start, the rows do not change between two tries.
- AssetsService.RejectUpload: states the rows after the call, not that the task was stored before the object was deleted.
- WorkerProgram.Process: whether an error is retryable is an answer of the outside, not computed from its kind; that it publishes is stated for stored transcriptions.
- GenerationsService.Start: the rows do not change between two tries, because an aborted try leaves no trace and other transactions are actions of their own in `Protocol`.
