/** Atomic steps of services/api/internal/database/review.go and of the redaction queue in redaction.go. */
module ReviewSteps {
  import opened Common
  import opened Sessions
  import opened Queues
  import opened Tables

  /** A redaction document that passed canonicalRedactionDocument: its hash and its source videos. */
  datatype RedactionRequest = RedactionRequest(documentHash: Id, videos: set<RawKey>)

  const MINUTE: Time := 60 * SECOND

  function ClaimReview(db: Db, s: Id, reviewer: Id, duration: Time, now: Time): Outcome<ReviewClaim> {
    if duration < MINUTE || duration > 8 * 60 * MINUTE then Rollback(Invalid)
    else if s !in db.sessions then Rollback(NotFound)
    else if db.sessions[s].state != ReadyForReview then Rollback(InvalidTransition)
    else if s in db.claims && db.claims[s].expiresAt > now && db.claims[s].reviewer != reviewer then Rollback(ReviewClaimed)
    else
      var claim := ReviewClaim(reviewer, now, now + duration);
      Commit(Logged(db.(claims := db.claims[s := claim]), reviewer, now, Noted("review.claimed", s)), claim)
  }

  function ReleaseReview(db: Db, s: Id, reviewer: Id, now: Time): Outcome<Id> {
    if s !in db.claims || db.claims[s].reviewer != reviewer then Rollback(ReviewLease)
    else Commit(Logged(db.(claims := db.claims - {s}), reviewer, now, Noted("review.released", s)), s)
  }

  function Target(decision: Decision): SessionState {
    match decision
    case AcceptedDecision => Accepted
    case RejectedDecision => Rejected
    case ReworkDecision => ReworkRequired
  }

  /** The videos a redaction plan of session s must decide on. */
  function Videos(artifacts: map<RawKey, Artifact>, s: Id): set<RawKey> {
    set k | k in artifacts && k.session == s && artifacts[k].mediaType == "video/mp4" && artifacts[k].purgedAt == None
  }

  predicate CoversVideos(artifacts: map<RawKey, Artifact>, s: Id, planned: set<RawKey>) {
    planned != {} && planned == Videos(artifacts, s)
  }

  predicate PlanTaken(plans: map<Id, Plan>, s: Id, requestId: Id) {
    exists p | p in plans :: plans[p].session == s && plans[p].requestId == requestId
  }

  /** Inserts a plan and its queued job. */
  function Planned(db: Db, s: Id, reviewer: Id, requestId: Id, hash: Id, plan: Id, job: Id, now: Time): Db {
    Logged(Logged(db.(
      plans := db.plans[plan := Plan(s, reviewer, requestId, hash, now)],
      redactions := db.redactions[job := RedactionJob(plan, s, None, None, Fresh(now))]),
      reviewer, now, Noted("redaction_plan.approved", plan)),
      reviewer, now, Noted("redaction_job.queued", job))
  }

  /** Why the plan that accompanies an accepting review is refused, if it is. */
  function PlanRefused(db: Db, s: Id, requestId: Id, document: Option<RedactionRequest>, plan: Id, job: Id): Option<Error> {
    if document == None then None
    else if HasDeletion(db.deletions, s, PendingDeletion) then Some(DeletionPending)
    else if !CoversVideos(db.artifacts, s, document.value.videos) then Some(RedactionEligibility)
    else if plan in db.plans || job in db.redactions || PlanTaken(db.plans, s, requestId) then Some(Conflict)
    else None
  }

  /** A session has at most one rework successor. */
  predicate HasSuccessor(sessions: map<Id, SessionRow>, s: Id) {
    exists x | x in sessions :: sessions[x].reworkOf == Some(s)
  }

  /** Why the plan or the successor of a review is refused, if it is. */
  function WritesRefused(db: Db, s: Id, decision: Decision, requestId: Id, document: Option<RedactionRequest>, plan: Id, job: Id,
                         successor: Id): Option<Error>
  {
    var refused := PlanRefused(db, s, requestId, document, plan, job);
    if refused.Some? then refused
    else if decision == ReworkDecision && (successor in db.sessions || HasSuccessor(db.sessions, s)) then Some(Conflict)
    else None
  }

  /** What a review writes before its session moves: the review, and its plan or, on rework, a successor session
      for the same assignment. */
  function ReviewWrites(db: Db, s: Id, reviewer: Id, decision: Decision, pii: PIIReview, document: Option<RedactionRequest>,
                        requestId: Id, review: Id, plan: Id, job: Id, successor: Id, now: Time): (written: Db)
    requires s in db.sessions
    ensures s in written.sessions
  {
    var reviewed := db.(reviews := db.reviews[review := Review(s, reviewer, decision, pii, now)]);
    if document.Some? then Planned(reviewed, s, reviewer, requestId, document.value.documentHash, plan, job, now)
    else if decision == ReworkDecision then
      reviewed.(
        sessions := reviewed.sessions[successor := SessionRow(db.sessions[s].assignment, Assigned, None, Some(s), now)],
        audit := reviewed.audit + [AuditEvent(reviewer, now, ReworkAssigned(successor, s))])
    else reviewed
  }

  /** The end of a review: its claim goes, and the session moves. */
  function Concluded(db: Db, s: Id, review: Id, to: SessionState, reviewer: Id, now: Time): Db
    requires s in db.sessions
  {
    Moved(Logged(db.(claims := db.claims - {s}), reviewer, now, Noted("review.submitted", review)), s, to, reviewer, now)
  }

  function SubmitReview(db: Db, s: Id, reviewer: Id, decision: Decision, pii: PIIReview, document: Option<RedactionRequest>,
                        requestId: Id, review: Id, plan: Id, job: Id, successor: Id, now: Time): Outcome<Id>
  {
    if decision == AcceptedDecision && pii != Passed then Rollback(PIIGate)
    else if document.Some? && decision != AcceptedDecision then Rollback(InvalidRedactionPlan)
    else if s !in db.sessions then Rollback(NotFound)
    else if db.sessions[s].state != ReadyForReview then Rollback(InvalidTransition)
    else if s !in db.claims || db.claims[s].reviewer != reviewer || db.claims[s].expiresAt <= now then Rollback(ReviewLease)
    else if review in db.reviews then Rollback(Conflict)
    else
      var refused := WritesRefused(db, s, decision, requestId, document, plan, job, successor);
      if refused.Some? then Rollback(refused.value)
      else
        var writes := ReviewWrites(db, s, reviewer, decision, pii, document, requestId, review, plan, job, successor, now);
        Commit(Concluded(writes, s, review, Target(decision), reviewer, now), review)
  }

  predicate AcceptedBefore(reviews: map<Id, Review>, s: Id) {
    exists r | r in reviews :: reviews[r].session == s && reviews[r].decision == AcceptedDecision && reviews[r].pii == Passed
  }

  /** What looking a plan up by session and request answers. */
  predicate LookedUp(plans: map<Id, Plan>, s: Id, requestId: Id, found: Option<Id>) {
    match found
    case Some(p) => p in plans && plans[p].session == s && plans[p].requestId == requestId
    case None => !PlanTaken(plans, s, requestId)
  }

  /** A repeated request answers with the plan it made the first time; `existing` is that lookup's answer. */
  function CreateRedactionPlan(db: Db, s: Id, reviewer: Id, requestId: Id, document: RedactionRequest, existing: Option<Id>,
                               plan: Id, job: Id, now: Time): Outcome<Id>
  {
    if !LookedUp(db.plans, s, requestId, existing) then Rollback(Invalid)
    else if existing.Some? then
      if db.plans[existing.value].documentHash != document.documentHash || db.plans[existing.value].reviewer != reviewer
      then Rollback(RedactionConflict)
      else Commit(db, existing.value)
    else if s !in db.sessions then Rollback(NotFound)
    else if db.sessions[s].state != Accepted || !AcceptedBefore(db.reviews, s) then Rollback(RedactionEligibility)
    else if HasDeletion(db.deletions, s, PendingDeletion) then Rollback(DeletionPending)
    else if !CoversVideos(db.artifacts, s, document.videos) then Rollback(RedactionEligibility)
    else if plan in db.plans || job in db.redactions then Rollback(Conflict)
    else Commit(Planned(db, s, reviewer, requestId, document.documentHash, plan, job, now), plan)
  }

  function ClaimRedactionJob(db: Db, job: Id, worker: Id, duration: Time, now: Time): Outcome<Id> {
    if duration <= 0 then Rollback(Invalid)
    else if job !in db.redactions || !Claimable(db.redactions[job].lease, now) then Rollback(NoJob)
    else
      var row := db.redactions[job];
      if row.session !in db.sessions then Rollback(NotFound)
      else if db.sessions[row.session].state != Accepted then Rollback(InvalidTransition)
      else if HasDeletion(db.deletions, row.session, PendingDeletion) then Rollback(DeletionPending)
      else
        Commit(Logged(db.(redactions := db.redactions[job := row.(lease := Claimed(row.lease, worker, duration, now))]),
                      worker, now, Noted("redaction_job.leased", job)), job)
  }

  /** The output manifest must lie under the job's own plan, named by `manifestPlan` here. */
  function CompleteRedactionJob(db: Db, job: Id, worker: Id, manifestPlan: Id, now: Time): Outcome<Id> {
    if job !in db.redactions then Rollback(NotFound)
    else if !OwnedBy(db.redactions[job].lease, worker) then Rollback(JobLease)
    else if manifestPlan != db.redactions[job].plan then Rollback(Invalid)
    else
      var row := db.redactions[job];
      Commit(Logged(db.(redactions := db.redactions[job := row.(finishedAt := Some(now), lease := Parked(row.lease, Completed))]),
                    worker, now, Noted("redaction_job.completed", job)), job)
  }

  function RequeueRedactionJob(db: Db, job: Id, worker: Id, maxAttempts: int, now: Time): Outcome<Status> {
    if maxAttempts < 1 then Rollback(Invalid)
    else if job !in db.redactions then Rollback(NotFound)
    else if !OwnedBy(db.redactions[job].lease, worker) then Rollback(JobLease)
    else
      var row := db.redactions[job];
      if row.lease.attempt < maxAttempts then
        Commit(Logged(db.(redactions := db.redactions[job := row.(lease := Requeued(row.lease, now))]),
                      worker, now, Noted("redaction_job.requeued", job)), Queued)
      else
        Commit(Logged(db.(redactions := db.redactions[job := row.(finishedAt := Some(now), lease := Parked(row.lease, DeadLetter))]),
                      worker, now, Noted("redaction_job.dead_lettered", job)), DeadLetter)
  }

  function RetryDeadLetterRedactionJob(db: Db, job: Id, actor: Id, now: Time): Outcome<Id> {
    if job !in db.redactions then Rollback(NotFound)
    else if db.redactions[job].lease.status != DeadLetter then Rollback(NotDeadLetter)
    else
      var row := db.redactions[job];
      if row.session !in db.sessions then Rollback(NotFound)
      else if db.sessions[row.session].state != Accepted then Rollback(InvalidTransition)
      else if HasDeletion(db.deletions, row.session, PendingDeletion) then Rollback(DeletionPending)
      else
        Commit(Logged(db.(redactions := db.redactions[job := row.(finishedAt := None, lease := Retried(row.lease, now))]),
                      actor, now, Noted("redaction_job.manual_retry", job)), job)
  }

  datatype ReviewAction =
    | TakeReview(session: Id, duration: Time)
    | DropReview(session: Id)
    | GiveReview(session: Id, decision: Decision, pii: PIIReview, attached: Option<RedactionRequest>, requestId: Id,
                 review: Id, plan: Id, job: Id, successor: Id)

  datatype RedactionAction =
    | CreatePlan(session: Id, requestId: Id, document: RedactionRequest, existing: Option<Id>, plan: Id, job: Id)
    | ClaimRedaction(job: Id, duration: Time)
    | CompleteRedaction(job: Id, manifestPlan: Id)
    | RequeueRedaction(job: Id, maxAttempts: int)
    | RetryRedaction(job: Id)

  function ReviewStep(db: Db, me: Id, now: Time, action: ReviewAction): Db {
    match action
    case TakeReview(s, duration) => ClaimReview(db, s, me, duration, now).After(db)
    case DropReview(s) => ReleaseReview(db, s, me, now).After(db)
    case GiveReview(s, decision, pii, attached, requestId, review, plan, job, successor) =>
      SubmitReview(db, s, me, decision, pii, attached, requestId, review, plan, job, successor, now).After(db)
  }

  function RedactionStep(db: Db, me: Id, now: Time, action: RedactionAction): Db {
    match action
    case CreatePlan(s, requestId, document, existing, plan, job) =>
      CreateRedactionPlan(db, s, me, requestId, document, existing, plan, job, now).After(db)
    case ClaimRedaction(job, duration) => ClaimRedactionJob(db, job, me, duration, now).After(db)
    case CompleteRedaction(job, plan) => CompleteRedactionJob(db, job, me, plan, now).After(db)
    case RequeueRedaction(job, maxAttempts) => RequeueRedactionJob(db, job, me, maxAttempts, now).After(db)
    case RetryRedaction(job) => RetryDeadLetterRedactionJob(db, job, me, now).After(db)
  }
}
