# Trajectory capture, review and release: a verified model

A contributor's collector films work on a task and seals the recording; the control plane stores, validates, reviews,
redacts, erases, expires and releases such recordings; an exporter writes releases and a separate tool checks them. This
project models the parts of that system whose safety no single function states, and proves it for every run and every
input. `dafny verify dfyconfig.toml` checks it.

## How it is built

**Control plane** (`services/api/internal/database`). `Tables` holds the rows as one value. `PipelineSteps`,
`ReviewSteps`, `ErasureSteps`, `RetentionSteps` and `ReleaseSteps` give every `Store` method as one guarded atomic step
that commits a new database or rolls back with an error. `Database.Store` is the program: one method per Go method,
working on a copy of the tables and committing last, proved equal to its step and to keep every invariant.
`ControlPlane` makes the steps a transition system in which API callers, workers and exporters interleave at any times,
and an exporter remembers what it listed until it commits. `Invariants` says what holds of every reachable database;
`Safety` and `Preservation` show that each step keeps it; `Evolution` says what one step may change; `Runs`,
`Guarantees` and `QueueHistory` draw the conclusions for whole runs, and `Witnesses` reaches the states they speak
about: holds are respected, releases and erasures are for ever, redaction and deletion exclude each other, consent is
always there, the audit log replays to the stored states, queues belong to their last claimant.

**Collector** (`apps/collector`). `SpoolSteps` and `CaptureSteps` give the session directory, the segment recorder and
the commands, with failing processes, crashes between commands and between the writes of a finalization, and recovery.
`Collector` holds the classes that do this in place. `SpoolSafety` keeps the directory consistent over every run;
`Submission` has the submitter's and the server's checks and `Timeline` what reading logs by name does to their events;
`Acceptance` and `CollectorGuarantees` show that what a run finalizes passes both, and that nothing sealed is lost.
`Calendar` is the conversion of seconds to a date.

**Uploads.** `PartPlan` relates the two part plans; `Uploads` is the completion protocol call by call, each call failing
before or after its effect, retried and run concurrently.

**Data.** `NormalizeActions`, `RedactionDocument` and `Sorting` are the loops over actions, redaction documents and
keys. `RedactionOutputs` is what a worker makes of a redaction plan and the exporter asks of it; `ReleaseFiles`,
`Exporter` and `ReleaseValidator` are the release writer and its independent checker.

Some results say exactly where the code promises less than one might expect: `Guarantees.StrandedExactly` (a RELEASED
session leaves a queued redaction job that can never be claimed again), `QueueHistory.AttemptsPastLimit` with
`Witnesses.AttemptsWithoutBound` (leases that run out raise attempts past any limit),
`CollectorGuarantees.RecoveryHarmlessExactly` (recovering the session being filmed loses a sealed segment or its log),
`CollectorGuarantees.FinishingAccepted` (outputs of one name must agree, and from a million segments on log names can
scramble events), `RedactionOutputs.PublishableExactly` (a plan that repeats a segment identifier is never published),
`Exporter.ReleaseAccepted` (what the exporter leaves unchecked) and `NormalizeActions.IdempotentExactly`.

## Model

| member | source | states |
|---|---|---|
| Guarantees.HoldsAreRespected | services/api/internal/database/erasure.go:59-80 | in every reachable state no held session has a leased deletion or a leased purge of its raw data, derived data or release; every leased purge carries the current policy's timestamp; everything blocked has an active hold behind it |
| Guarantees.LeaseHoldersComplete | services/api/internal/database/erasure.go:412-421 | in every reachable state a deletion or purge can be completed exactly by the owner of its lease: the hold checks of the completing transactions never fire |
| Guarantees.ReleasedForever | services/api/internal/database/release.go:128-165 | a session in a committed release stays in it and RELEASED through any continuation, its latest review accepted with PII passed, without queued, leased or blocked deletion |
| Guarantees.MembersAreSources | services/api/internal/database/release.go:184-198 | in every reachable state the membership table names a release for a session exactly when that release lists the session |
| Guarantees.ErasedForever | services/api/internal/database/erasure.go:422-451 | an erased session stays DELETED, and in no later state does a review, result, plan, job, artifact, claim, membership, active hold or active deletion point at it |
| Guarantees.OnlyLeasedDeletionErases | services/api/internal/database/erasure.go:412-424 | whichever call takes a session to DELETED, its caller held the lease of a deletion of that session and the session was not held |
| Guarantees.RedactionExcludedByDeletion | services/api/internal/database/redaction.go:207-215 | no reachable session has both a queued or leased redaction and a queued, leased, blocked or dead-lettered deletion |
| Guarantees.ConsentIsHeld | services/api/internal/database/store.go:251-277 | every reachable session outside CREATED, ASSIGNED, CANCELLED and DELETED carries a stored acceptance of its own contributor |
| Guarantees.LogReplays | services/api/internal/database/store.go:55-65 | replaying the audit log gives every session's stored state, and every entry starts from the state replayed before it, along the transition table, a rework assignment, the recovery of FAILED or an erasure |
| Guarantees.DeadLetterMeansFailed | services/api/internal/database/pipeline.go:380-414 | a dead-lettered validation job's session is FAILED and has no other dead-lettered job |
| Guarantees.ClaimCommits | services/api/internal/database/redaction.go:344-405 | in a reachable state a claimable redaction is leased exactly while its session is ACCEPTED |
| Guarantees.StrandedExactly | services/api/internal/database/redaction.go:372-374 | a queued redaction is never leased in any continuation exactly when its session is RELEASED, by a release or by a plain transition |
| Guarantees.ReleaseStrandsRedaction | services/api/internal/database/redaction.go:372-374 | a redaction still queued when its session is RELEASED keeps its row and its place in the queue for ever |
| Guarantees.ReachableFollows | services/api/internal/database/redaction.go:177-188 | every redaction's session is ACCEPTED or RELEASED |
| Witnesses.StrandedRun | services/api/internal/database/store.go:296-327 | a run of the calls, from an empty work database, that ends in such a state |
| QueueHistory.LeasedByLastClaimant | services/api/internal/database/erasure.go:347-356 | in all four queues the stored lease belongs to the caller who last took it |
| QueueHistory.OnlyLastClaimantFinishes | services/api/internal/database/erasure.go:374-388 | while a lease runs only its last claimant changes the row; completing, requeueing and, in the validation and redaction queues, dead-lettering are that claimant's even after the lease has run out |
| QueueHistory.FinalRowsStay | services/api/internal/database/retention_expiry.go:344-367 | a completed or cancelled row never changes again while it exists |
| QueueHistory.DeletingRowsStay | services/api/internal/database/erasure.go:426-445 | deletion and purge rows are never removed |
| QueueHistory.AttemptsAccounted | services/api/internal/database/erasure.go:347-356 | the attempts of a row are its leases since it entered or was last retried, and each of them went back to the queue, ran out, closed the row or still runs |
| QueueHistory.RequeuesBounded | services/api/internal/database/erasure.go:376-388 | with at most n attempts allowed a row is requeued at most n - 1 times between manual retries |
| QueueHistory.AttemptsPastLimit | services/api/internal/database/erasure.go:292-293 | a leased row has more than n attempts exactly when requeues and leases that ran out make n before this one, and never without a lease that ran out |
| Witnesses.AttemptsWithoutBound | services/api/internal/database/erasure.go:276-358 | for every n there is a run, without any requeue, that leaves a leased deletion with more than n attempts |
| QueueHistory.EvolvesRow | services/api/internal/database/erasure.go:276-397 | every row of the four queues enters fresh and moves along one automaton of claims, requeues, completions and retries |
| Runs.ReachableSafe | services/api/internal/database/release.go:34-51 | every state reachable by any interleaving of calls keeps all invariants, and every exporter's listing stays vouched for until it commits |
| Runs.StepKeeps | services/api/internal/database/release.go:150-165 | one call of any kind keeps all invariants, including a release committed long after its candidates were listed |
| Runs.StepEvolves | services/api/internal/database/review.go:222-224 | one call of any kind moves session rows, reviews, memberships and leases only as the two-state relations allow |
| Runs.VouchedEvolves | services/api/internal/domain/session.go:41-43 | what an exporter read of a candidate stays true: ACCEPTED is not re-entered once left, and reviews are written in READY_FOR_REVIEW only |
| Runs.ListedIsVouched | services/api/internal/database/release.go:34-51 | every listed candidate is ACCEPTED, in the project, and accepted with PII passed by its latest review |
| Runs.CommitReleaseKeeps | services/api/internal/database/release.go:83-210 | committing vouched sources keeps every invariant |
| Sessions.Session.Transition | services/api/internal/domain/session.go:69-96 | moves the state, the time and the audit list together along the transition table, and otherwise changes none of them |
| Safety.AllowedLeaves | services/api/internal/domain/session.go:32-44 | RELEASED, FAILED and DELETED have no outgoing edge, DELETED and CREATED no incoming one, and only READY begins to need consent |
| Database.FirstClaimable | services/api/internal/database/erasure.go:285-294 | the scan answers the least unlocked claimable row in (available_at, id) order, or None exactly when there is none |
| Database.Store.AssignTask | services/api/internal/database/store.go:173-209 | commits an assignment with its session in ASSIGNED and both audit rows; refused for a repeated pair of task and contributor |
| Database.Store.AcceptConsent | services/api/internal/database/store.go:225-285 | binds the assigned contributor's acceptance to a session in ASSIGNED; refused for another contributor, another state or a document not yet in force; an earlier acceptance is kept |
| Database.Store.TransitionSession | services/api/internal/database/store.go:296-327 | moves a session along the transition table only, with its audit row; READY needs a consent |
| Database.Store.RegisterArtifact | services/api/internal/database/pipeline.go:55-113 | inserts an artifact once, while UPLOADING; a repeat with the same hash, size and type answers with the row, another is refused |
| Database.Store.SubmitSession | services/api/internal/database/pipeline.go:157-215 | moves a session with a trajectory, a video and an event log to SUBMITTED and queues its validation job |
| Database.Store.ClaimValidationJob | services/api/internal/database/pipeline.go:217-279 | leases the first claimable row in (available_at, id) order that nobody has locked, and takes a SUBMITTED session to PROCESSING; any other session state undoes the lease |
| Database.Store.CompleteValidationJob | services/api/internal/database/pipeline.go:281-351 | only the leaseholder completes; the verdict moves the session to READY_FOR_REVIEW or FAILED and is stored once per job |
| Database.Store.RequeueValidationJob | services/api/internal/database/pipeline.go:353-414 | the leaseholder's job goes back to the queue after attempt squared seconds, or is dead-lettered with its session FAILED once the attempts are used up |
| Database.Store.RetryDeadLetterJob | services/api/internal/database/pipeline.go:470-524 | a dead-lettered job of a FAILED session is queued again with no attempts, and the session returns to PROCESSING |
| Database.Store.ClaimReview | services/api/internal/database/review.go:84-126 | takes or renews the claim on a session in READY_FOR_REVIEW unless another reviewer's claim still runs |
| Database.Store.ReleaseReview | services/api/internal/database/review.go:128-156 | gives up a claim that the caller holds |
| Database.Store.SubmitReview | services/api/internal/database/review.go:158-359 | writes review, session state, plan and job or rework successor in one commit, or refuses and changes nothing; an acceptance needs PII passed |
| Database.Store.CreateRedactionPlan | services/api/internal/database/redaction.go:145-275 | answers a repeated request with its first plan, refuses a different document, and otherwise queues one job for an accepted session without pending deletion whose videos the plan covers |
| Database.Store.ClaimRedactionJob | services/api/internal/database/redaction.go:344-405 | leases the first claimable row of the queue; a session that left ACCEPTED or awaits deletion undoes the lease |
| Database.Store.CompleteRedactionJob | services/api/internal/database/redaction.go:407-444 | only the leaseholder completes, with a manifest of the job's own plan |
| Database.Store.RequeueRedactionJob | services/api/internal/database/redaction.go:446-490 | the leaseholder's job is queued again or dead-lettered by its attempts |
| Database.Store.RetryDeadLetterRedactionJob | services/api/internal/database/redaction.go:549-604 | a dead-lettered job is queued again only for an ACCEPTED session without pending deletion |
| Database.Store.PlaceLegalHold | services/api/internal/database/erasure.go:28-102 | one active hold a session; refused for an erased session and while a deletion or a purge touching it is leased |
| Database.Store.ReleaseLegalHold | services/api/internal/database/erasure.go:104-146 | ends the hold and makes every deletion and purge it blocked claimable again |
| Database.Store.RequestSessionDeletion | services/api/internal/database/erasure.go:148-228 | queues one deletion for a session in a deletable state, unheld and without a running redaction |
| Database.Store.ClaimDeletionRequest | services/api/internal/database/erasure.go:276-358 | the first claimable row is dead-lettered when its session may no longer be deleted, blocked when it is held, and leased otherwise |
| Database.Store.RequeueDeletionRequest | services/api/internal/database/erasure.go:360-397 | the leaseholder's request is queued again or dead-lettered by its attempts |
| Database.Store.CompleteDeletionRequest | services/api/internal/database/erasure.go:399-454 | the leaseholder erases every row of an unheld session and leaves the session row as a DELETED tombstone |
| Database.Store.RetryDeadLetterDeletionRequest | services/api/internal/database/erasure.go:465-528 | a dead-lettered request is queued again for a deletable, unheld session with no other active request |
| Database.Store.UpsertRetentionPolicy | services/api/internal/database/retention.go:29-74 | a policy of 1 to 3650 days each, refused while a purge of the organization is leased |
| Database.Store.QueueExpiredRetention | services/api/internal/database/retention_expiry.go:30-193 | queues expired, unheld and unrequested resources up to the limit, raw before derived before releases, and counts them |
| Database.Store.ClaimRetentionPurge | services/api/internal/database/retention_expiry.go:195-249 | the first claimable row is cancelled when its policy or eligibility is gone, blocked when it touches a held session, and leased otherwise; the answer is the stored status |
| Database.Store.RequeueRetentionPurge | services/api/internal/database/retention_expiry.go:369-405 | the leaseholder's request is queued again or dead-lettered by its attempts |
| Database.Store.CompleteRetentionPurge | services/api/internal/database/retention_expiry.go:310-367 | the leaseholder marks what was purged, once, unless a hold touches it |
| Database.Store.RetryDeadLetterRetentionPurge | services/api/internal/database/retention_expiry.go:416-463 | a dead-lettered purge is queued again unless another active one names the resource |
| Database.Store.CommitRelease | services/api/internal/database/release.go:83-210 | answers a repeated release by name with the first one, and otherwise releases exactly the given distinct ACCEPTED sessions without active deletion |
| Database.Store.ConcludeReview | services/api/internal/database/review.go:204-359 | writes all rows of a review in the program's order, or reports the refusal of its plan or successor |
| Database.Store.ReleaseSessions | services/api/internal/database/release.go:184-198 | releases the locked sessions one by one, each with its membership and audit row |
| Database.Store.FindRelease | services/api/internal/database/release.go:105-127 | the lookup by project and name finds a release exactly when there is one |
| Database.Store.FindPlan | services/api/internal/database/redaction.go:277-301 | the lookup by session and request identifier finds a plan exactly when there is one |
| Preservation.AssignTaskKeeps | services/api/internal/database/store.go:173-209 | keeps every invariant; the session enters audited and in ASSIGNED, the one state after CREATED that needs no consent |
| Preservation.AcceptConsentKeeps | services/api/internal/database/store.go:225-285 | keeps every invariant; the acceptance on a session is always its own contributor's |
| Preservation.TransitionSessionKeeps | services/api/internal/database/store.go:296-327 | keeps every invariant; for any requested target: READY needs a consent, RELEASED, FAILED and DELETED are never left, so no member of a release and no dead-lettered session moves |
| Preservation.RegisterArtifactKeeps | services/api/internal/database/pipeline.go:55-113 | keeps every invariant; an artifact row never points at an erased session |
| Preservation.SubmitSessionKeeps | services/api/internal/database/pipeline.go:157-215 | keeps every invariant; the queued job points at a live session whose move is audited |
| Preservation.ClaimValidationJobKeeps | services/api/internal/database/pipeline.go:217-279 | keeps every invariant; the lease and the move to PROCESSING commit together |
| Preservation.CompleteValidationJobKeeps | services/api/internal/database/pipeline.go:281-351 | keeps every invariant; the session leaves PROCESSING, so it had no dead-lettered job to contradict |
| Preservation.RequeueValidationJobKeeps | services/api/internal/database/pipeline.go:353-414 | keeps every invariant; burying a job fails its session in the same commit, and the session had no other dead-lettered job since it was not FAILED |
| Preservation.RetryDeadLetterJobKeeps | services/api/internal/database/pipeline.go:470-524 | keeps every invariant; FAILED is left together with the session's only dead-lettered job |
| Preservation.ClaimReviewKeeps | services/api/internal/database/review.go:84-126 | keeps every invariant; a claim points at a live session |
| Preservation.ReleaseReviewKeeps | services/api/internal/database/review.go:128-156 | keeps every invariant; dropping a claim touches nothing that relies on it |
| Preservation.SubmitReviewKeeps | services/api/internal/database/review.go:158-359 | keeps every invariant; a new latest review cannot concern a release member, a plan is queued only without pending deletion, and a rework successor enters audited, in ASSIGNED and without consent |
| Preservation.CreateRedactionPlanKeeps | services/api/internal/database/redaction.go:145-275 | keeps every invariant; a running redaction appears only where no deletion pends, dead-lettered ones included |
| Preservation.ClaimRedactionJobKeeps | services/api/internal/database/redaction.go:344-405 | keeps every invariant; a leased redaction still excludes pending deletions |
| Preservation.CompleteRedactionJobKeeps | services/api/internal/database/redaction.go:407-444 | keeps every invariant; a finished redaction excludes nothing any more |
| Preservation.RequeueRedactionJobKeeps | services/api/internal/database/redaction.go:446-490 | keeps every invariant; a requeued job was running, so no deletion pends |
| Preservation.RetryDeadLetterRedactionJobKeeps | services/api/internal/database/redaction.go:549-604 | keeps every invariant; a dead-lettered redaction excludes nothing, so its retry must look for pending deletions itself |
| Preservation.PlaceLegalHoldKeeps | services/api/internal/database/erasure.go:28-102 | keeps every invariant; no deletion and no purge touching the session is leased when the hold appears |
| Preservation.ReleaseLegalHoldKeeps | services/api/internal/database/erasure.go:104-146 | keeps every invariant; what stays blocked still touches another held session, a release with two held members included |
| Preservation.RequestSessionDeletionKeeps | services/api/internal/database/erasure.go:148-228 | keeps every invariant; the session is unheld, in no release, without a running redaction and without another active request |
| Preservation.ClaimDeletionRequestKeeps | services/api/internal/database/erasure.go:276-358 | keeps every invariant; leased only unheld, blocked only held |
| Preservation.RequeueDeletionRequestKeeps | services/api/internal/database/erasure.go:360-397 | keeps every invariant; the row keeps excluding redactions, dead-lettered included |
| Preservation.CompleteDeletionRequestKeeps | services/api/internal/database/erasure.go:399-454 | keeps every invariant; nothing relies on the erased session, although the session state is not looked at: a leased deletion's session is in no release |
| Preservation.RetryDeadLetterDeletionRequestKeeps | services/api/internal/database/erasure.go:465-528 | keeps every invariant; has no redaction check and needs none, because dead-lettered requests already exclude running redactions |
| Preservation.UpsertRetentionPolicyKeeps | services/api/internal/database/retention.go:29-74 | keeps every invariant; no leased purge outlives the policy it was claimed under |
| Preservation.QueueExpiredRetentionKeeps | services/api/internal/database/retention_expiry.go:30-193 | keeps every invariant; rows enter unleased and name existing releases |
| Preservation.ClaimRetentionPurgeKeeps | services/api/internal/database/retention_expiry.go:195-249 | keeps every invariant; leased only under the current policy and untouched by holds, blocked only touched by one |
| Preservation.RequeueRetentionPurgeKeeps | services/api/internal/database/retention_expiry.go:369-405 | keeps every invariant; gives up the lease, so policy and holds may change again |
| Preservation.CompleteRetentionPurgeKeeps | services/api/internal/database/retention_expiry.go:310-367 | keeps every invariant; marks rows purged without moving a session, a lease or a release |
| Preservation.RetryDeadLetterRetentionPurgeKeeps | services/api/internal/database/retention_expiry.go:416-463 | keeps every invariant; needs no policy or hold check, because the row is not leased |
| Preservation.LeasedDeletion | services/api/internal/database/erasure.go:308-346 | a leased deletion's session is live, unheld, in no release, without running redaction and without another active request |
| Preservation.ReleaseEachKeeps | services/api/internal/database/release.go:184-198 | releasing vouched sessions one after another keeps every invariant |
| Evolution.PipelineEvolves | services/api/internal/database/store.go:173-327 | assignment, consent, transitions, registration and submission move sessions along the transition table and insert fresh jobs |
| Evolution.ValidationEvolves | services/api/internal/database/pipeline.go:217-524 | validation jobs move along claim, completion, requeue, giving up and retry, and FAILED is left for PROCESSING only |
| Evolution.ReviewedEvolves | services/api/internal/database/review.go:204-359 | a review is added for the one session that leaves READY_FOR_REVIEW, whose earlier reviews and those of all others stay |
| Evolution.ErasureEvolves | services/api/internal/database/erasure.go:28-528 | a session reaches DELETED only for the unheld owner of its leased deletion, and deletion rows follow the queue automaton |
| Evolution.ErasedEvolves | services/api/internal/database/erasure.go:422-440 | erasing one session leaves sessions, reviews and memberships of all others |
| Evolution.RetentionEvolves | services/api/internal/database/retention_expiry.go:30-463 | purge rows follow the queue automaton and nothing but purge marks changes elsewhere |
| Evolution.CommitReleaseEvolves | services/api/internal/database/release.go:83-210 | the released sessions were ACCEPTED, and the membership table stays in agreement with the releases' source lists |
| Evolution.RedactionJobEvolves | services/api/internal/database/redaction.go:344-604 | claims, completions and retries of redaction jobs change only their own row, and a row starts running only while its session is ACCEPTED |
| Evolution.ReleaseEachMoves | services/api/internal/database/release.go:184-198 | releasing distinct sessions moves exactly those and touches only sessions, members and audit |
| Evolution.ReleaseEachJoins | services/api/internal/database/release.go:184-198 | exactly the released sessions become members of the release |
| Evolution.SuccessorSame | services/api/internal/database/review.go:323-341 | writing the reviewed session's row first does not change whether it has a rework successor |
| Calendar.ChronoFreeUtc | apps/collector/src-tauri/src/submission.rs:752-772 | in u64 and i64 arithmetic that never overflows, every second count gets the date and time that the day-by-day calendar gives |
| Calendar.EraOf | apps/collector/src-tauri/src/submission.rs:755-757 | the truncating division with its adjustment rounds down |
| Calendar.CivilCorrect | apps/collector/src-tauri/src/submission.rs:753-768 | the era, year and month formulas give the day-by-day date for every day number |
| Calendar.DateAfterCounts | apps/collector/src-tauri/src/submission.rs:752-772 | the n-th date after the epoch is valid and counts back to n |
| Calendar.FieldsInvert | apps/collector/src-tauri/src/submission.rs:752-772 | the fields are a valid date and time and count back to the instant |
| Calendar.FieldsOrdered | apps/collector/src-tauri/src/submission.rs:752-772 | an instant is earlier exactly when its fields are |
| Calendar.FourDigitYears | apps/collector/src-tauri/src/submission.rs:769-771 | the year has the four digits that section 5.6 of RFC 3339 asks for exactly below second 253402300800 |
| Collector.SessionSpool.Create | apps/collector/src-tauri/crates/collector-core/src/spool.rs:197-241 | a new session is READY, empty and stored |
| Collector.SessionSpool.Open | apps/collector/src-tauri/crates/collector-core/src/spool.rs:243-247 | a reopened session has the stored state |
| Collector.SessionSpool.CheckpointElapsed | apps/collector/src-tauri/crates/collector-core/src/spool.rs:265-280 | moves the elapsed time forward only, while RECORDING or PAUSED |
| Collector.SessionSpool.PrepareRecovery | apps/collector/src-tauri/crates/collector-core/src/spool.rs:282-303 | seals a segment with footage, aborts one without, and ends PAUSED; FINALIZED is refused |
| Collector.SessionSpool.Start | apps/collector/src-tauri/crates/collector-core/src/spool.rs:305-310 | READY to RECORDING |
| Collector.SessionSpool.Pause | apps/collector/src-tauri/crates/collector-core/src/spool.rs:312-322 | RECORDING without an active segment to PAUSED |
| Collector.SessionSpool.Resume | apps/collector/src-tauri/crates/collector-core/src/spool.rs:324-328 | PAUSED to RECORDING |
| Collector.SessionSpool.BeginVideoSegment | apps/collector/src-tauri/crates/collector-core/src/spool.rs:330-351 | takes the next index and creates its event log; a leftover log refuses after the state is stored |
| Collector.SessionSpool.AbortVideoSegment | apps/collector/src-tauri/crates/collector-core/src/spool.rs:353-370 | removes the segment's files and frees its index |
| Collector.SessionSpool.FinishVideoSegment | apps/collector/src-tauri/crates/collector-core/src/spool.rs:372-403 | seals the segment at a later end with non-empty footage; the three refusals leave memory and disk as the program does |
| Collector.SessionSpool.RecordEvent | apps/collector/src-tauri/crates/collector-core/src/spool.rs:405-444 | appends an allowed, non-decreasing event to the active log |
| Collector.SessionSpool.BeginFinalization | apps/collector/src-tauri/crates/collector-core/src/spool.rs:446-461 | RECORDING or PAUSED without an active segment to FINALIZING |
| Collector.SessionSpool.CollectSegments | apps/collector/src-tauri/crates/collector-core/src/spool.rs:478-488 | lists video and log of every usable segment, filling empty logs up to the first unusable one |
| Collector.SessionSpool.CollectOutputs | apps/collector/src-tauri/crates/collector-core/src/spool.rs:489-496 | copies and lists the outputs up to the first that cannot be attached |
| Collector.SessionSpool.Finalize | apps/collector/src-tauri/crates/collector-core/src/spool.rs:463-517 | writes the manifest before FINALIZED is stored; every refusal leaves exactly the files written before it |
| Collector.SegmentedRecorder.Start | apps/collector/src-tauri/crates/collector-core/src/recorder.rs:184-201 | begins a segment and holds a process, or aborts the segment when the process cannot be started |
| Collector.SegmentedRecorder.StopActive | apps/collector/src-tauri/crates/collector-core/src/recorder.rs:230-242 | gives up the process and seals the segment only after a clean stop |
| Collector.SegmentedRecorder.Rotate | apps/collector/src-tauri/crates/collector-core/src/recorder.rs:203-210 | stops and starts at one timestamp |
| Collector.SegmentedRecorder.Pause | apps/collector/src-tauri/crates/collector-core/src/recorder.rs:212-215 | stops, then pauses |
| Collector.SegmentedRecorder.Resume | apps/collector/src-tauri/crates/collector-core/src/recorder.rs:217-224 | resumes, then starts |
| Collector.ActiveCapture.Record | apps/collector/src-tauri/src/lib.rs:224-235 | records an event at the clock's reading |
| Collector.ActiveCapture.Checkpoint | apps/collector/src-tauri/src/lib.rs:238-247 | stores the clock's reading |
| Collector.ActiveCapture.Rotate | apps/collector/src-tauri/src/lib.rs:250-280 | a failed rotation recovers the spool and stops the clock |
| Collector.ActiveCapture.Pause | apps/collector/src-tauri/src/lib.rs:283-323 | stops the clock whatever the recorder does |
| Collector.ActiveCapture.Resume | apps/collector/src-tauri/src/lib.rs:326-368 | starts the clock only after the recorder has resumed |
| Collector.ActiveCapture.Finish | apps/collector/src-tauri/src/lib.rs:414-466 | gives the capture up and finalizes what could be wound up |
| Collector.StartCapture | apps/collector/src-tauri/src/lib.rs:160-221 | the session is held only if its first segment was started, and is left PAUSED otherwise |
| Collector.RecoverSession | apps/collector/src-tauri/src/lib.rs:371-411 | the directory is recovered in any case; the session is then held by a stopped capture unless it is finalized or another capture is held |
| Collector.RecoverHeld | apps/collector/src-tauri/src/lib.rs:383-397 | for the session that is held, its directory changes and its capture does not |
| SpoolSafety.RunOk | apps/collector/src-tauri/crates/collector-core/src/spool.rs:330-403 | after any commands, crashes and recoveries, recoveries of a held capture that is not filming included, the directory and the capture are consistent: segment chain, indices, logs, footage, clock, manifest |
| SpoolSafety.IdleRecoveryOk | apps/collector/src-tauri/src/lib.rs:383-397 | recovering the directory behind a capture that films nothing keeps both consistent, a leftover active segment included |
| SpoolSafety.RecoveryOk | apps/collector/src-tauri/crates/collector-core/src/spool.rs:282-303 | recovery ends PAUSED and is refused only for FINALIZED or a segment begun at the clock's last instant |
| SpoolSafety.FinalizeOk | apps/collector/src-tauri/crates/collector-core/src/spool.rs:463-517 | in a consistent state finalization succeeds exactly with a sealed segment and attachable outputs |
| SpoolSafety.InterruptedOk | apps/collector/src-tauri/crates/collector-core/src/spool.rs:478-516 | a crash between any two writes of finalization leaves a consistent directory |
| CollectorGuarantees.SegmentsInOrder | apps/collector/src-tauri/crates/collector-core/src/spool.rs:372-444 | unless the session was recovered while it was filmed, sealed segments are numbered from one, ordered and disjoint, every event lies in its own segment's time, and the active index is one past the sealed count |
| CollectorGuarantees.RunGrows | apps/collector/src-tauri/crates/collector-core/src/spool.rs:372-403 | over any such continuation sealed segments are only appended, FINALIZED is never left, and a manifest stays |
| CollectorGuarantees.RecoveryHarmlessExactly | apps/collector/src-tauri/src/lib.rs:383-397 | recovering a session, held or not, loses nothing sealed and leaves every later seal complete in all continuations exactly when the session is not being filmed |
| CollectorGuarantees.ReplacedRun | apps/collector/src-tauri/src/lib.rs:383-397 | a run in which recovery seals a segment with footage on disk and the capture then replaces it |
| CollectorGuarantees.LostLogRun | apps/collector/src-tauri/src/lib.rs:383-397 | a run in which recovery throws a segment without footage away, the capture seals it without its log, and the session can no longer be finalized whatever outputs it has |
| CollectorGuarantees.LeftoverRun | apps/collector/src-tauri/src/lib.rs:326-368 | a run with an active segment on disk that nothing films, where recovery is harmless |
| CollectorGuarantees.ListedOnce | apps/collector/src-tauri/crates/collector-core/src/spool.rs:547-605 | after any run at all, a created session without receipt is on exactly one of the recoverable and pending lists |
| CollectorGuarantees.OnlyFinishFinalizes | apps/collector/src-tauri/src/lib.rs:414-466 | only a finish command that was wound up ends in FINALIZED |
| CollectorGuarantees.FinishingAccepted | apps/collector/src-tauri/src/submission.rs:193-264 | what a finish command finalizes is accepted by the submitter and the server exactly when it attached outputs, those of one name agree, and the log names do not scramble the events |
| CollectorGuarantees.FinalizedRunAccepted | apps/collector/src-tauri/src/submission.rs:193-264 | a run that ends FINALIZED with agreeing outputs is accepted exactly when no earlier segment's event precedes one of a later segment whose log name sorts first, which below a million segments is always so |
| Acceptance.ManifestVerified | apps/collector/src-tauri/src/submission.rs:193-217 | verify_manifest accepts a sealed capture exactly when it has an output and outputs of one name agree |
| Acceptance.CaptureAccepted | services/api/internal/worker/validator.go:290-343 | the submitted document passes the timeline check, and with it every segment, action and output check of the server, exactly when the log names do not scramble the events |
| Acceptance.DocumentConsistent | services/api/internal/worker/validator.go:318-327 | of a sealed capture's document only the actions' timeline can be found inconsistent |
| Acceptance.OutputEntriesDescribe | apps/collector/src-tauri/crates/collector-core/src/spool.rs:489-496 | the manifest describes the copied outputs exactly when outputs of one name agree |
| Timeline.NamesSortLikeNumbers | apps/collector/src-tauri/src/submission.rs:219-246 | sorting the logs of n segments by name gives segment order exactly below a million |
| Timeline.OnTimelineExactly | apps/collector/src-tauri/src/submission.rs:219-264 | read in name order the events of a sealed capture are on the timeline exactly when no two inverted names have an event of the earlier segment before one of the later |
| Timeline.NameOrderExists | apps/collector/src-tauri/src/submission.rs:228 | there is an order by name for every number of segments |
| Submission.VerifyManifest | apps/collector/src-tauri/src/submission.rs:193-217 | accepts exactly the manifests with a duration, segments, an output, and every listed file present with its size and hash |
| Submission.ValidateTimeline | apps/collector/src-tauri/src/submission.rs:249-264 | accepts exactly the non-decreasing action times within the duration |
| Submission.ValidateCrossReferences | services/api/internal/worker/validator.go:290-343 | no problem is reported exactly when segments, actions and outputs agree with the registered artifacts and the timeline |
| Submission.StemsOrdered | apps/collector/src-tauri/crates/collector-core/src/spool.rs:337-344 | below a million the padded file names sort like the segment numbers |
| Submission.NamesInvertedExactly | apps/collector/src-tauri/crates/collector-core/src/spool.rs:337-344 | among the names of segments 1 to n two sort the wrong way round exactly from a million on |
| Submission.StemValue | apps/collector/src-tauri/crates/collector-core/src/spool.rs:337-344 | a file name gives its segment number back |
| PartPlan.PlansAgree | services/api/internal/httpapi/multipart_uploads.go:352-368 | server and collector give every part the same size, at least one byte and at most the part size |
| PartPlan.NoOtherParts | services/api/internal/httpapi/multipart_uploads.go:359-368 | past the plan both sides give size zero |
| PartPlan.PartsTile | apps/collector/src-tauri/src/submission.rs:522-527 | every byte lies in exactly one part |
| PartPlan.PartsEndTogether | apps/collector/src-tauri/src/submission.rs:522-527 | each part ends where the next begins, the last with the artifact |
| PartPlan.FewParts | services/api/internal/httpapi/artifacts.go:21 | an artifact of up to 20 GiB has at most 1280 parts, and the arithmetic stays within 64 bits |
| PartPlan.RecordPart | services/api/internal/httpapi/multipart_uploads.go:312-337 | a part is recorded only at its planned size, and again replaces itself |
| PartPlan.UploadMissing | apps/collector/src-tauri/src/submission.rs:518-545 | from any recorded parts the loop ends with all parts recorded exactly when no missing part fails, and never drops one |
| PartPlan.PartsComplete | services/api/internal/httpapi/multipart_uploads.go:218-231 | the completeness check accepts exactly the listings of the whole plan in order |
| PartPlan.CompleteWhenAllRecorded | services/api/internal/httpapi/multipart_uploads.go:218-231 | the check succeeds exactly when every part is recorded |
| Uploads.RawIsImmutable | services/api/internal/blobstore/r2.go:166-192 | for any handlers, faults, retries and interleavings a raw key keeps its bytes until a purge of it is leased |
| Uploads.RunGrounded | services/api/internal/httpapi/multipart_uploads.go:232-280 | every reachable state has each registered artifact backed by its bytes, each completed upload registered, and each handler fit for its next call |
| Uploads.RegisteredBytes | services/api/internal/httpapi/multipart_uploads.go:265-276 | a registered artifact's key holds bytes of the registered size and hash until a purge of it is leased |
| Uploads.CallGrounded | services/api/internal/httpapi/artifacts.go:120-145 | any call of either upload path, failing before or after its effect, keeps that |
| Uploads.RetryCompletes | services/api/internal/httpapi/multipart_uploads.go:232-281 | a completion begun again after any interruption commits exactly when the bytes it finds are the declared ones, and otherwise registers nothing and leaves raw storage alone |
| NormalizeActions.Normalize | services/api/internal/worker/validator.go:202-247 | the loop computes the recursive description, wrap-around subtraction included |
| NormalizeActions.TraceKept | services/api/internal/worker/validator.go:202-247 | presses, releases with their times and applications, and key events are the same before and after, in order |
| NormalizeActions.TimelineKept | services/api/internal/worker/validator.go:202-247 | times stay non-decreasing and within the capture duration |
| NormalizeActions.MovesSpaced | services/api/internal/worker/validator.go:216-224 | consecutive kept moves at non-zero times are at least 100 ms apart |
| NormalizeActions.ClicksPlaced | services/api/internal/worker/validator.go:225-243 | each adjacent press and release becomes one click at the last move's position, kept or dropped, and no other click appears |
| NormalizeActions.NothingElseLost | services/api/internal/worker/validator.go:202-247 | output length, dropped moves and folded pairs add up to the input length |
| NormalizeActions.IdempotentExactly | services/api/internal/worker/validator.go:202-247 | a second pass changes nothing exactly when no press meets a matching release across dropped moves alone, for all inputs and wrap-around times |
| NormalizeActions.NotIdempotent | services/api/internal/worker/validator.go:216-224 | there is an input that a second pass changes |
| RedactionDocument.CanonicalDocument | services/api/internal/database/redaction.go:55-98 | the loop with its seen set and in-place sort encodes exactly the valid documents, sorted by source key |
| RedactionDocument.CanonicalExactly | services/api/internal/database/redaction.go:55-98 | documents encode alike, in success and failure, when they are reorderings, and valid ones only then |
| RedactionDocument.DecodedIsFixed | services/api/internal/database/redaction.go:121-143 | decoding gives the segments sorted by source key, and encoding that again changes nothing |
| RedactionDocument.ValidPermutes | services/api/internal/database/redaction.go:56-92 | validity does not depend on the order of the segments |
| Sorting.SortInPlace | services/api/internal/database/redaction.go:94-96 | sorting in place leaves the one strictly increasing arrangement of items with distinct keys |
| Sorting.OrderedUnique | services/api/internal/database/redaction.go:94-96 | items have only one strictly increasing arrangement |
| Exporter.Export | services/api/internal/releases/exporter.go:168-291 | the program writes exactly the described files, lists them sorted with the checksums of the others, and records exactly the keys written |
| Exporter.PutCandidates | services/api/internal/releases/exporter.go:207-242 | writes each trajectory and its redacted videos in order and collects the JSONL lines |
| Exporter.Seal | services/api/internal/releases/exporter.go:248-258 | the checksums are of the sorted list without them, and the final list is sorted with them |
| Exporter.ReleaseAccepted | tools/dataset-validator/src/release.ts:27-136 | the validator accepts what the exporter writes exactly when the schema is trajectory/v1, every trajectory is valid and its session's own, and every video is MP4: what the exporter does not check |
| Exporter.ObjectKeysValid | services/api/internal/database/release.go:212-228 | the recorded keys are those of the files, the manifest and the bundle, and pass the database's check |
| Exporter.ExportAccepted | services/api/internal/releases/exporter.go:108-297 | both together, from the listed candidates to the committed keys |
| Exporter.DirectoryHolds | services/api/internal/releases/exporter.go:207-258 | what is listed is in the directory with its size and hash, and nothing else is; sound inputs also make every file what its path says |
| ReleaseValidator.ValidateRelease | tools/dataset-validator/src/release.ts:27-136 | no error is collected exactly for the accepted directories |
| ReleaseValidator.CheckEntries | tools/dataset-validator/src/release.ts:59-83 | no error exactly when every listed file is there with its size, hash and kind |
| ReleaseValidator.ReadEntry | tools/dataset-validator/src/release.ts:59-83 | one file is checked and, once read, kept for the later checks, a trajectory also under the session of its name |
| ReleaseValidator.CheckFixedFiles | tools/dataset-validator/src/release.ts:85-105 | no error exactly when checksums, readme, schema and JSONL are as declared |
| ReleaseValidator.CheckLines | tools/dataset-validator/src/release.ts:104-125 | no error exactly when line i is source i's own trajectory file |
| ReleaseValidator.ValidReleaseObjectKeys | services/api/internal/database/release.go:212-228 | accepts exactly the strictly sorted keys below the release's prefix or its bundle, with manifest and bundle among them |
| RedactionOutputs.PublishableExactly | services/api/internal/releases/exporter.go:299-357 | the outputs of a completed redaction can be used by the exporter exactly when its plan's segment identifiers are distinct, which approval does not ask for |
| RedactionOutputs.LoadRedaction | services/api/internal/releases/exporter.go:326-344 | accepts exactly a manifest of as many outputs as segments, with distinct identifiers, each matching its approved segment and its stored object |
| RedactionOutputs.ProcessRedaction | services/api/internal/worker/processor.go:126-179 | one output and one object a segment, the object of a repeated identifier replaced |
| ReleaseFiles.TextInjective | services/api/internal/releases/exporter.go:213-227 | different trajectories, videos and fixed files have different paths |

## Left out

Control plane:

- SQL isolation, row locks and lost connections: each transaction is atomic, and a claim is told which rows others have locked.
- Identifiers are integers ordered as the database orders them; generated identifiers and the time are parameters, and time is not assumed to advance.
- HTTP routing, authentication, roles, invitations, listing queries and set-up calls (organizations, projects, templates, tasks, contributors, consent texts): the set-up rows are given.
- Checks that an actor, a request identifier, a version or a rubric is present, audit metadata, error texts, review scores and plan version numbers.
- Object key lists in deletion and purge rows, and the keys a release stores: only the release's own key check is modelled. A deletion's keys are taken when it is requested, so nothing is claimed about every object being erased.
- The worker's loops over object keys (services/api/internal/worker/processor.go): lease claims are about the stored row, since a worker whose lease expired may still be at work.
- Rows of multipart uploads in the control-plane tables: `Uploads` has them, and erasing or expiring them is not modelled there.
- A consent acceptance is the pair of contributor and document, which the schema declares unique, instead of an identifier.
- Trimming of the reasons of holds and deletions: a reason is what is left after it, and its length counts characters, not bytes.
- Back-off times are unbounded integers; the attempt squared in seconds overflows a Go duration only beyond ninety thousand attempts.
- A session can also reach RELEASED through a plain transition, without any release; the release guarantees are about members of releases.
- A listing with two valid results of one session repeats the session; it is modelled, and the commit then refuses it.

Collector:

- Native input hooks, windows, the recording indicator, the keyring and preflight: their failures act as the pause, crash and begin commands.
- FFmpeg: a capture process starts or not, leaves any file, and stops cleanly or not.
- Storing state.json and manifest.json and removing files succeed; crashes fall between commands and between the writes of a finalization, not inside recording one event.
- Collector.ActiveCapture.Record: assumes, like the other commands, that a running clock has moved past the start of the active segment when it is read.
- Recovering one session while another is held acts on the first like a recovery followed by a crash.
- Segment numbers are unbounded; the program's are 32 bits wide.
- A policy-denied event whose pause and recovery both fail leaves the clock running in the program and stopped in the model; recovery then fails only at the last instant of the clock.
- The order of artifacts in a manifest and the media types of outputs, none of which is the event logs' type: outputs have one type here.
- Event contents and contexts: an event is its time and the policy's decision on it.
- The schema check of a trajectory, media inspection, privacy flags and key prefixes in the server's validation, and the submission's HTTP calls.

Uploads:

- Single-request presigned uploads, entity tags, expiry of upload rows, and erasure of a session during an upload.
- Two objects have equal hashes only if they are equal, here as everywhere in this project.

Data:

- NormalizeActions.Normalize: actions are JSON objects; numbers are kept as written except for the times, and negative or fractional times, which count as zero or are cut off, are not modelled.
- RedactionDocument.CanonicalDocument: the JSON text is the document itself; coordinates are real numbers, so NaN, infinities and rounding are left out.
- Exporter.Export: starts from listed candidates with their trajectories and loaded redactions; the early return for an existing release, the merging of review results into a trajectory, the dimensions and format of a redaction's manifest, failing storage calls and the zip encoding are left out, and JSON, hash and identifier derivation are injective.
- ReleaseValidator.ValidateRelease: a file that is not of the expected kind counts as one failed check, whichever messages the program would print; malformed JSON and non-ASCII identifiers are not modelled.
