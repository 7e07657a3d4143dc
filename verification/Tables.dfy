/** The rows of the control-plane database, as one value.
    Keys that the migrations declare unique are the keys of the maps here. */
module Tables {
  import opened Common
  import opened Sessions
  import opened Queues

  datatype Error =
    | NotFound | Invalid | Conflict | InvalidTransition | ConsentMissing | NotOwner | NotEffective
    | ArtifactConflict | ArtifactsMissing | NoJob | JobLease | NotDeadLetter
    | ReviewClaimed | ReviewLease | PIIGate | InvalidRedactionPlan
    | RedactionEligibility | RedactionConflict | RedactionInProgress
    | DeletionNotAllowed | DeletionPending | DeletionInProgress | LegalHoldActive | LegalHoldExists
    | RetentionPurgeInProgress | ReleaseEligibility | ReleaseConflict

  datatype Result<+T> = Ok(value: T) | Err(error: Error)

  datatype Assignment = Assignment(task: Id, contributor: Id)
  datatype AcceptanceKey = AcceptanceKey(contributor: Id, document: Id)

  datatype SessionRow = SessionRow(
    assignment: Id, state: SessionState, consent: Option<AcceptanceKey>, reworkOf: Option<Id>, updatedAt: Time)

  /** A logical key below the session's own raw prefix. */
  datatype RawKey = RawKey(session: Id, path: string)
  datatype Artifact = Artifact(sha256: Id, size: int, mediaType: string, purgedAt: Option<Time>)

  datatype ValidationJob = ValidationJob(session: Id, lease: Lease)
  datatype ValidationResult = ValidationResult(
    job: Id, session: Id, valid: bool, createdAt: Time, purgedAt: Option<Time>)

  datatype Decision = AcceptedDecision | RejectedDecision | ReworkDecision
  datatype PIIReview = Pending | Passed | FailedPII
  datatype Review = Review(session: Id, reviewer: Id, decision: Decision, pii: PIIReview, createdAt: Time)
  datatype ReviewClaim = ReviewClaim(reviewer: Id, claimedAt: Time, expiresAt: Time)

  datatype Plan = Plan(session: Id, reviewer: Id, requestId: Id, documentHash: Id, createdAt: Time)
  datatype RedactionJob = RedactionJob(
    plan: Id, session: Id, finishedAt: Option<Time>, purgedAt: Option<Time>, lease: Lease)

  datatype LegalHold = LegalHold(session: Id, releasedAt: Option<Time>)
  datatype DeletionRequest = DeletionRequest(session: Id, lease: Lease)

  datatype Policy = Policy(rawDays: int, derivedDays: int, releaseDays: int, updatedAt: Time)
  datatype Resource = SessionRaw(session: Id) | SessionDerived(session: Id) | ReleaseObjects(release: Id)
  datatype PurgeRequest = PurgeRequest(organization: Id, resource: Resource, policyUpdatedAt: Time, lease: Lease)

  datatype Release = Release(
    project: Id, name: Id, configurationHash: Id, manifestHash: Id,
    sources: seq<Id>, createdAt: Time, purgedAt: Option<Time>)

  datatype Db = Db(
    // Set-up tables: projects and their organizations, tasks, contributors, consent documents.
    projects: map<Id, Id>,
    tasks: map<Id, Id>,
    contributors: set<Id>,
    documents: map<Id, Time>,
    // Work tables.
    assignments: map<Id, Assignment>,
    sessions: map<Id, SessionRow>,
    acceptances: map<AcceptanceKey, Time>,
    artifacts: map<RawKey, Artifact>,
    jobs: map<Id, ValidationJob>,
    results: map<Id, ValidationResult>,
    claims: map<Id, ReviewClaim>,
    reviews: map<Id, Review>,
    plans: map<Id, Plan>,
    redactions: map<Id, RedactionJob>,
    holds: map<Id, LegalHold>,
    deletions: map<Id, DeletionRequest>,
    policies: map<Id, Policy>,
    purges: map<Id, PurgeRequest>,
    releases: map<Id, Release>,
    members: map<Id, Id>,   // release_sessions: session -> release
    audit: seq<AuditEvent>)

  /** What a transaction does: commit a new database and answer, or roll back with an error. */
  datatype Outcome<+T> = Commit(db: Db, value: T) | Rollback(error: Error) {
    function After(before: Db): Db {
      if Commit? then db else before
    }
    function Answer(): Result<T> {
      if Commit? then Ok(value) else Err(error)
    }
  }

  function Logged(db: Db, actor: Id, now: Time, entry: AuditEntry): Db {
    db.(audit := db.audit + [AuditEvent(actor, now, entry)])
  }

  /** Writes a session's new state back together with its audit row. */
  function Moved(db: Db, s: Id, to: SessionState, actor: Id, now: Time): Db
    requires s in db.sessions
  {
    var row := db.sessions[s];
    Logged(db.(sessions := db.sessions[s := row.(state := to, updatedAt := now)]),
           actor, now, Transitioned(s, row.state, to))
  }

  /** The organization a session belongs to, through its assignment, task and project. */
  function ProjectOf(db: Db, s: Id): Option<Id> {
    if s in db.sessions && db.sessions[s].assignment in db.assignments
       && db.assignments[db.sessions[s].assignment].task in db.tasks
    then Some(db.tasks[db.assignments[db.sessions[s].assignment].task])
    else None
  }

  function OrganizationOf(db: Db, s: Id): Option<Id> {
    var project := ProjectOf(db, s);
    if project.Some? && project.value in db.projects then Some(db.projects[project.value]) else None
  }

  /** Sessions with an active legal hold. */
  function Held(holds: map<Id, LegalHold>): set<Id> {
    set h | h in holds && holds[h].releasedAt == None :: holds[h].session
  }

  predicate HasDeletion(deletions: map<Id, DeletionRequest>, s: Id, statuses: set<Status>) {
    exists d | d in deletions :: deletions[d].session == s && deletions[d].lease.status in statuses
  }

  const ActiveDeletion: set<Status> := {Queued, Leased, Blocked}
  const PendingDeletion: set<Status> := {Queued, Leased, Blocked, DeadLetter}
  const RunningRedaction: set<Status> := {Queued, Leased}

  predicate HasRedaction(redactions: map<Id, RedactionJob>, s: Id, statuses: set<Status>) {
    exists j | j in redactions :: redactions[j].session == s && redactions[j].lease.status in statuses
  }

  /** The sessions whose data a purge request covers. */
  predicate Touches(resource: Resource, members: map<Id, Id>, s: Id) {
    match resource
    case SessionRaw(x) => s == x
    case SessionDerived(x) => s == x
    case ReleaseObjects(r) => s in members && members[s] == r
  }

  predicate TouchesHeld(resource: Resource, members: map<Id, Id>, holds: map<Id, LegalHold>) {
    exists s | s in Held(holds) :: Touches(resource, members, s)
  }
}
