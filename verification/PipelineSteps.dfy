/** Atomic steps of services/api/internal/database/store.go and pipeline.go: assignment, consent,
    session transitions, artifacts and the validation queue. */
module PipelineSteps {
  import opened Common
  import opened Sessions
  import opened Queues
  import opened Tables

  predicate AlreadyAssigned(assignments: map<Id, Assignment>, assignment: Assignment) {
    exists a | a in assignments :: assignments[a] == assignment
  }

  function AssignTask(db: Db, task: Id, contributor: Id, assignment: Id, session: Id, actor: Id, now: Time): Outcome<Id> {
    if task !in db.tasks || contributor !in db.contributors || assignment in db.assignments || session in db.sessions
       || AlreadyAssigned(db.assignments, Assignment(task, contributor)) then
      Rollback(Conflict)
    else
      var inserted := db.(
        assignments := db.assignments[assignment := Assignment(task, contributor)],
        sessions := db.sessions[session := SessionRow(assignment, Assigned, None, None, now)]);
      Commit(Logged(Logged(inserted, actor, now, Noted("task.assigned", assignment)),
                    actor, now, Transitioned(session, Created, Assigned)), session)
  }

  /** An earlier acceptance of the same document by the same contributor is kept. */
  function WithAcceptance(acceptances: map<AcceptanceKey, Time>, key: AcceptanceKey, now: Time): map<AcceptanceKey, Time> {
    if key in acceptances then acceptances else acceptances[key := now]
  }

  function AcceptConsent(db: Db, s: Id, contributor: Id, document: Id, actor: Id, now: Time): Outcome<AcceptanceKey> {
    if s !in db.sessions || db.sessions[s].assignment !in db.assignments || document !in db.documents then Rollback(NotFound)
    else if db.assignments[db.sessions[s].assignment].contributor != contributor then Rollback(NotOwner)
    else if db.sessions[s].state != Assigned then Rollback(InvalidTransition)
    else if db.documents[document] > now then Rollback(NotEffective)
    else
      var key := AcceptanceKey(contributor, document);
      var row := db.sessions[s].(consent := Some(key), updatedAt := now);
      Commit(Logged(db.(acceptances := WithAcceptance(db.acceptances, key, now), sessions := db.sessions[s := row]),
                    actor, now, Noted("consent.accepted", s)), key)
  }

  function TransitionSession(db: Db, s: Id, to: SessionState, actor: Id, now: Time): Outcome<Id> {
    if s !in db.sessions then Rollback(NotFound)
    else if to == Ready && db.sessions[s].consent == None then Rollback(ConsentMissing)
    else if !Allowed(db.sessions[s].state, to) then Rollback(InvalidTransition)
    else Commit(Moved(db, s, to, actor, now), s)
  }

  function RegisterArtifact(db: Db, key: RawKey, sha256: Id, size: int, mediaType: string, actor: Id, now: Time)
    : Outcome<Artifact>
  {
    var artifact := Artifact(sha256, size, mediaType, None);
    if key.path == "" || size < 1 || mediaType == "" then Rollback(Invalid)
    else if key.session !in db.sessions then Rollback(NotFound)
    else if db.sessions[key.session].state != Uploading then Rollback(InvalidTransition)
    else if key in db.artifacts then
      if db.artifacts[key].(purgedAt := None) != artifact then Rollback(ArtifactConflict)
      else Commit(db, db.artifacts[key])
    else
      Commit(Logged(db.(artifacts := db.artifacts[key := artifact]), actor, now,
                    Noted("artifact.registered", key.session)), artifact)
  }

  predicate SubmissionComplete(artifacts: map<RawKey, Artifact>, s: Id) {
    && RawKey(s, "trajectory.json") in artifacts
    && (exists k | k in artifacts :: k.session == s && artifacts[k].mediaType == "video/mp4")
    && (exists k | k in artifacts :: k.session == s && artifacts[k].mediaType == "application/x-ndjson")
  }

  /** The unique index on queued and leased jobs of one session. */
  predicate HasActiveJob(jobs: map<Id, ValidationJob>, s: Id) {
    exists j | j in jobs :: jobs[j].session == s && jobs[j].lease.status in {Queued, Leased}
  }

  predicate HasResult(results: map<Id, ValidationResult>, job: Id) {
    exists v | v in results :: results[v].job == job
  }

  function SubmitSession(db: Db, s: Id, job: Id, actor: Id, now: Time): Outcome<Id> {
    if s !in db.sessions then Rollback(NotFound)
    else if db.sessions[s].state != Uploading then Rollback(InvalidTransition)
    else if !SubmissionComplete(db.artifacts, s) then Rollback(ArtifactsMissing)
    else if job in db.jobs || HasActiveJob(db.jobs, s) then Rollback(Conflict)
    else
      var submitted := Moved(db.(jobs := db.jobs[job := ValidationJob(s, Fresh(now))]), s, Submitted, actor, now);
      Commit(Logged(submitted, actor, now, Noted("processing_job.queued", job)), job)
  }

  /** Leasing row `job`; a session still SUBMITTED enters PROCESSING, any other state undoes the lease. */
  function ClaimValidationJob(db: Db, job: Id, worker: Id, duration: Time, now: Time): Outcome<Id> {
    if duration <= 0 then Rollback(Invalid)
    else if job !in db.jobs || !Claimable(db.jobs[job].lease, now) then Rollback(NoJob)
    else
      var s := db.jobs[job].session;
      if s !in db.sessions then Rollback(NotFound)
      else if db.sessions[s].state !in {Submitted, Processing} then Rollback(InvalidTransition)
      else
        var leased := db.(jobs := db.jobs[job := db.jobs[job].(lease := Claimed(db.jobs[job].lease, worker, duration, now))]);
        var moved := if db.sessions[s].state == Submitted then Moved(leased, s, Processing, worker, now) else leased;
        Commit(Logged(moved, worker, now, Noted("processing_job.leased", job)), job)
  }

  function Verdict(valid: bool): SessionState {
    if valid then ReadyForReview else Failed
  }

  function CompleteValidationJob(db: Db, job: Id, worker: Id, valid: bool, result: Id, now: Time): Outcome<Id> {
    if job !in db.jobs then Rollback(NotFound)
    else if !OwnedBy(db.jobs[job].lease, worker) then Rollback(JobLease)
    else
      var s := db.jobs[job].session;
      var target := Verdict(valid);
      if s !in db.sessions then Rollback(NotFound)
      else if !Allowed(db.sessions[s].state, target) then Rollback(InvalidTransition)
      else if result in db.results || HasResult(db.results, job) then Rollback(Conflict)
      else
        var finished := db.jobs[job].lease.(status := Completed, expiresAt := None);
        var written := db.(
          results := db.results[result := ValidationResult(job, s, valid, now, None)],
          jobs := db.jobs[job := db.jobs[job].(lease := finished)]);
        Commit(Moved(Logged(written, worker, now, Noted("validation.completed", s)), s, target, worker, now), s)
  }

  function RequeueValidationJob(db: Db, job: Id, worker: Id, maxAttempts: int, now: Time): Outcome<Status> {
    if maxAttempts < 1 then Rollback(Invalid)
    else if job !in db.jobs then Rollback(NotFound)
    else if !OwnedBy(db.jobs[job].lease, worker) then Rollback(JobLease)
    else
      var row := db.jobs[job];
      if row.lease.attempt < maxAttempts then
        Commit(Logged(db.(jobs := db.jobs[job := row.(lease := Requeued(row.lease, now))]),
                      worker, now, Noted("processing_job.requeued", job)), Queued)
      else if row.session !in db.sessions then Rollback(NotFound)
      else if !Allowed(db.sessions[row.session].state, Failed) then Rollback(InvalidTransition)
      else
        var buried := db.(jobs := db.jobs[job := row.(lease := Parked(row.lease, DeadLetter))]);
        Commit(Moved(Logged(buried, worker, now, Noted("processing_job.dead_lettered", job)),
                     row.session, Failed, worker, now), DeadLetter)
  }

  /** The one way out of FAILED. */
  function RetryDeadLetterJob(db: Db, job: Id, actor: Id, now: Time): Outcome<Id> {
    if job !in db.jobs then Rollback(NotFound)
    else if db.jobs[job].lease.status != DeadLetter then Rollback(NotDeadLetter)
    else
      var row := db.jobs[job];
      var s := row.session;
      if s !in db.sessions then Rollback(NotFound)
      else if db.sessions[s].state != Failed then Rollback(InvalidTransition)
      else if HasActiveJob(db.jobs, s) then Rollback(Conflict)
      else
        var recovered := db.(
          jobs := db.jobs[job := row.(lease := Retried(row.lease, now))],
          sessions := db.sessions[s := db.sessions[s].(state := Processing, updatedAt := now)]);
        Commit(Logged(Logged(recovered, actor, now, Noted("processing_job.manual_retry", job)),
                      actor, now, ProcessingRecovered(s, Failed, Processing)), job)
  }

  datatype PipelineAction =
    | Assign(task: Id, contributor: Id, assignment: Id, session: Id)
    | Consent(session: Id, contributor: Id, document: Id)
    | Transition(session: Id, to: SessionState)
    | Register(key: RawKey, sha256: Id, size: int, mediaType: string)
    | Submit(session: Id, job: Id)

  datatype ValidationAction =
    | ClaimValidation(job: Id, duration: Time)
    | CompleteValidation(job: Id, valid: bool, result: Id)
    | RequeueValidation(job: Id, maxAttempts: int)
    | RetryValidation(job: Id)

  function PipelineStep(db: Db, me: Id, now: Time, action: PipelineAction): Db {
    match action
    case Assign(task, contributor, assignment, s) => AssignTask(db, task, contributor, assignment, s, me, now).After(db)
    case Consent(s, contributor, document) => AcceptConsent(db, s, contributor, document, me, now).After(db)
    case Transition(s, to) => TransitionSession(db, s, to, me, now).After(db)
    case Register(key, sha256, size, mediaType) => RegisterArtifact(db, key, sha256, size, mediaType, me, now).After(db)
    case Submit(s, job) => SubmitSession(db, s, job, me, now).After(db)
  }

  function ValidationStep(db: Db, me: Id, now: Time, action: ValidationAction): Db {
    match action
    case ClaimValidation(job, duration) => ClaimValidationJob(db, job, me, duration, now).After(db)
    case CompleteValidation(job, valid, result) => CompleteValidationJob(db, job, me, valid, result, now).After(db)
    case RequeueValidation(job, maxAttempts) => RequeueValidationJob(db, job, me, maxAttempts, now).After(db)
    case RetryValidation(job) => RetryDeadLetterJob(db, job, me, now).After(db)
  }
}
