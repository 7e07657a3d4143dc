/** The Store of services/api/internal/database. Every method is one transaction: it works on a copy of the tables,
    and the last statement commits the copy. Returning earlier rolls back. */
module Database {
  import opened Common
  import opened Sessions
  import opened Queues
  import opened Tables
  import Pipeline = PipelineSteps
  import Reviews = ReviewSteps
  import Erasures = ErasureSteps
  import Retentions = RetentionSteps
  import Releases = ReleaseSteps
  import Evo = Evolution
  import opened Invariants
  import Keeps = Preservation
  import Runs
  import ControlPlane

  /** Row a comes before row b in ORDER BY available_at, id. */
  predicate Before(rows: map<Id, Lease>, a: Id, b: Id)
    requires a in rows && b in rows
  {
    rows[a].availableAt < rows[b].availableAt || (rows[a].availableAt == rows[b].availableAt && a <= b)
  }

  /** What SELECT ... ORDER BY available_at, id FOR UPDATE SKIP LOCKED LIMIT 1 answers. */
  ghost predicate FirstOf(rows: map<Id, Lease>, locked: set<Id>, now: Time, found: Option<Id>) {
    match found
    case Some(j) =>
      && j in rows && j !in locked && Claimable(rows[j], now)
      && forall k | k in rows && k !in locked && Claimable(rows[k], now) :: Before(rows, j, k)
    case None => forall k | k in rows && k !in locked :: !Claimable(rows[k], now)
  }

  method FirstClaimable(rows: map<Id, Lease>, locked: set<Id>, now: Time) returns (found: Option<Id>)
    ensures FirstOf(rows, locked, now, found)
  {
    found := None;
    var todo := rows.Keys - locked;
    while todo != {}
      invariant todo <= rows.Keys - locked
      invariant found.Some? ==> found.value in rows && found.value !in locked && Claimable(rows[found.value], now)
      invariant forall k | k in rows && k !in locked && k !in todo && Claimable(rows[k], now) ::
                  found.Some? && Before(rows, found.value, k)
      decreases |todo|
    {
      ghost var some := Pick(todo);
      var k: Id :| k in todo;
      todo := todo - {k};
      if Claimable(rows[k], now) && (found == None || Before(rows, k, found.value)) {
        found := Some(k);
      }
    }
  }

  class Store {
    var db: Db

    constructor (db: Db)
      ensures this.db == db
    {
      this.db := db;
    }

    /** Loads a session, transitions it in memory, and writes its state and its audit event back. */
    static method MoveSession(tx: Db, s: Id, to: SessionState, actor: Id, now: Time) returns (ok: bool, moved: Db)
      requires s in tx.sessions
      ensures ok <==> Allowed(tx.sessions[s].state, to)
      ensures moved == if ok then Moved(tx, s, to, actor, now) else tx
    {
      var row := tx.sessions[s];
      var session := new Session(s, row.state, row.updatedAt);
      ok := session.Transition(to, actor, now);
      moved := tx;
      if ok {
        moved := tx.(sessions := tx.sessions[s := row.(state := session.state, updatedAt := session.updatedAt)]);
        moved := moved.(audit := moved.audit + [session.auditEvents[|session.auditEvents| - 1]]);
      }
    }

    // store.go

    method AssignTask(task: Id, contributor: Id, assignment: Id, session: Id, actor: Id, now: Time) returns (r: Result<Id>)
      modifies this
      ensures db == Pipeline.AssignTask(old(db), task, contributor, assignment, session, actor, now).After(old(db))
      ensures r == Pipeline.AssignTask(old(db), task, contributor, assignment, session, actor, now).Answer()
      ensures Inv(old(db)) ==> Inv(db)
    {
      if Inv(db) {
        Keeps.AssignTaskKeeps(db, task, contributor, assignment, session, actor, now);
      }
      var tx := db;
      if task !in tx.tasks || contributor !in tx.contributors || assignment in tx.assignments || session in tx.sessions
         || Pipeline.AlreadyAssigned(tx.assignments, Assignment(task, contributor)) {
        return Err(Conflict);
      }
      tx := tx.(assignments := tx.assignments[assignment := Assignment(task, contributor)]);
      tx := tx.(sessions := tx.sessions[session := SessionRow(assignment, Assigned, None, None, now)]);
      tx := Logged(tx, actor, now, Noted("task.assigned", assignment));
      tx := Logged(tx, actor, now, Transitioned(session, Created, Assigned));
      db := tx;
      return Ok(session);
    }

    method AcceptConsent(s: Id, contributor: Id, document: Id, actor: Id, now: Time) returns (r: Result<AcceptanceKey>)
      modifies this
      ensures db == Pipeline.AcceptConsent(old(db), s, contributor, document, actor, now).After(old(db))
      ensures r == Pipeline.AcceptConsent(old(db), s, contributor, document, actor, now).Answer()
      ensures Inv(old(db)) ==> Inv(db)
    {
      if Inv(db) {
        Keeps.AcceptConsentKeeps(db, s, contributor, document, actor, now);
      }
      var tx := db;
      if s !in tx.sessions || tx.sessions[s].assignment !in tx.assignments || document !in tx.documents {
        return Err(NotFound);
      }
      if tx.assignments[tx.sessions[s].assignment].contributor != contributor {
        return Err(NotOwner);
      }
      if tx.sessions[s].state != Assigned {
        return Err(InvalidTransition);
      }
      if tx.documents[document] > now {
        return Err(NotEffective);
      }
      var key := AcceptanceKey(contributor, document);
      if key !in tx.acceptances {
        tx := tx.(acceptances := tx.acceptances[key := now]);
      }
      tx := tx.(sessions := tx.sessions[s := tx.sessions[s].(consent := Some(key), updatedAt := now)]);
      tx := Logged(tx, actor, now, Noted("consent.accepted", s));
      db := tx;
      return Ok(key);
    }

    method TransitionSession(s: Id, to: SessionState, actor: Id, now: Time) returns (r: Result<Id>)
      modifies this
      ensures db == Pipeline.TransitionSession(old(db), s, to, actor, now).After(old(db))
      ensures r == Pipeline.TransitionSession(old(db), s, to, actor, now).Answer()
      ensures Inv(old(db)) ==> Inv(db)
    {
      if Inv(db) {
        Keeps.TransitionSessionKeeps(db, s, to, actor, now);
      }
      if s !in db.sessions {
        return Err(NotFound);
      }
      if to == Ready && db.sessions[s].consent == None {
        return Err(ConsentMissing);
      }
      var ok, tx := MoveSession(db, s, to, actor, now);
      if !ok {
        return Err(InvalidTransition);
      }
      db := tx;
      return Ok(s);
    }

    // pipeline.go

    method RegisterArtifact(key: RawKey, sha256: Id, size: int, mediaType: string, actor: Id, now: Time) returns (r: Result<Artifact>)
      modifies this
      ensures db == Pipeline.RegisterArtifact(old(db), key, sha256, size, mediaType, actor, now).After(old(db))
      ensures r == Pipeline.RegisterArtifact(old(db), key, sha256, size, mediaType, actor, now).Answer()
      ensures Inv(old(db)) ==> Inv(db)
    {
      if Inv(db) {
        Keeps.RegisterArtifactKeeps(db, key, sha256, size, mediaType, actor, now);
      }
      if key.path == "" || size < 1 || mediaType == "" {
        return Err(Invalid);
      }
      var tx := db;
      if key.session !in tx.sessions {
        return Err(NotFound);
      }
      if tx.sessions[key.session].state != Uploading {
        return Err(InvalidTransition);
      }
      if key in tx.artifacts {
        var existing := tx.artifacts[key];
        if existing.sha256 != sha256 || existing.size != size || existing.mediaType != mediaType {
          return Err(ArtifactConflict);
        }
        return Ok(existing);
      }
      var artifact := Artifact(sha256, size, mediaType, None);
      tx := tx.(artifacts := tx.artifacts[key := artifact]);
      tx := Logged(tx, actor, now, Noted("artifact.registered", key.session));
      db := tx;
      return Ok(artifact);
    }

    method SubmitSession(s: Id, job: Id, actor: Id, now: Time) returns (r: Result<Id>)
      modifies this
      ensures db == Pipeline.SubmitSession(old(db), s, job, actor, now).After(old(db))
      ensures r == Pipeline.SubmitSession(old(db), s, job, actor, now).Answer()
      ensures Inv(old(db)) ==> Inv(db)
    {
      if Inv(db) {
        Keeps.SubmitSessionKeeps(db, s, job, actor, now);
      }
      var tx := db;
      if s !in tx.sessions {
        return Err(NotFound);
      }
      if tx.sessions[s].state != Uploading {
        return Err(InvalidTransition);
      }
      if !Pipeline.SubmissionComplete(tx.artifacts, s) {
        return Err(ArtifactsMissing);
      }
      var ok;
      ok, tx := MoveSession(tx, s, Submitted, actor, now);
      if !ok || job in tx.jobs || Pipeline.HasActiveJob(tx.jobs, s) {
        return Err(Conflict);
      }
      tx := tx.(jobs := tx.jobs[job := ValidationJob(s, Fresh(now))]);
      tx := Logged(tx, actor, now, Noted("processing_job.queued", job));
      db := tx;
      return Ok(job);
    }

    method ClaimValidationJob(worker: Id, duration: Time, now: Time, locked: set<Id>) returns (job: Option<Id>, r: Result<Id>)
      modifies this
      ensures FirstOf(JobLeases(old(db)), locked, now, job)
      ensures job == None ==> db == old(db) && r == Err(if duration <= 0 then Invalid else NoJob)
      ensures job.Some? ==> db == Pipeline.ClaimValidationJob(old(db), job.value, worker, duration, now).After(old(db))
      ensures job.Some? ==> r == Pipeline.ClaimValidationJob(old(db), job.value, worker, duration, now).Answer()
      ensures Inv(old(db)) ==> Inv(db)
    {
      job := FirstClaimable(JobLeases(db), locked, now);
      if Inv(db) && job.Some? {
        Keeps.ClaimValidationJobKeeps(db, job.value, worker, duration, now);
      }
      if duration <= 0 {
        return job, Err(Invalid);
      }
      if job == None {
        return job, Err(NoJob);
      }
      var tx := db;
      var row := tx.jobs[job.value];
      tx := tx.(jobs := tx.jobs[job.value := row.(lease := Claimed(row.lease, worker, duration, now))]);
      if row.session !in tx.sessions {
        return job, Err(NotFound);
      }
      if tx.sessions[row.session].state == Submitted {
        var ok;
        ok, tx := MoveSession(tx, row.session, Processing, worker, now);
        if !ok {
          return job, Err(InvalidTransition);
        }
      } else if tx.sessions[row.session].state != Processing {
        return job, Err(InvalidTransition);
      }
      tx := Logged(tx, worker, now, Noted("processing_job.leased", job.value));
      db := tx;
      return job, Ok(job.value);
    }

    method CompleteValidationJob(job: Id, worker: Id, valid: bool, result: Id, now: Time) returns (r: Result<Id>)
      modifies this
      ensures db == Pipeline.CompleteValidationJob(old(db), job, worker, valid, result, now).After(old(db))
      ensures r == Pipeline.CompleteValidationJob(old(db), job, worker, valid, result, now).Answer()
      ensures Inv(old(db)) ==> Inv(db)
    {
      if Inv(db) {
        Keeps.CompleteValidationJobKeeps(db, job, worker, valid, result, now);
      }
      var tx := db;
      if job !in tx.jobs {
        return Err(NotFound);
      }
      var row := tx.jobs[job];
      if row.lease.status != Leased || row.lease.leasedBy != Some(worker) {
        return Err(JobLease);
      }
      if row.session !in tx.sessions {
        return Err(NotFound);
      }
      var target := Failed;
      if valid {
        target := ReadyForReview;
      }
      if !Allowed(tx.sessions[row.session].state, target) {
        return Err(InvalidTransition);
      }
      if result in tx.results || Pipeline.HasResult(tx.results, job) {
        return Err(Conflict);
      }
      tx := tx.(results := tx.results[result := ValidationResult(job, row.session, valid, now, None)]);
      tx := tx.(jobs := tx.jobs[job := row.(lease := row.lease.(status := Completed, expiresAt := None))]);
      tx := Logged(tx, worker, now, Noted("validation.completed", row.session));
      var ok;
      ok, tx := MoveSession(tx, row.session, target, worker, now);
      db := tx;
      return Ok(row.session);
    }

    method RequeueValidationJob(job: Id, worker: Id, maxAttempts: int, now: Time) returns (r: Result<Status>)
      modifies this
      ensures db == Pipeline.RequeueValidationJob(old(db), job, worker, maxAttempts, now).After(old(db))
      ensures r == Pipeline.RequeueValidationJob(old(db), job, worker, maxAttempts, now).Answer()
      ensures Inv(old(db)) ==> Inv(db)
    {
      if Inv(db) {
        Keeps.RequeueValidationJobKeeps(db, job, worker, maxAttempts, now);
      }
      if maxAttempts < 1 {
        return Err(Invalid);
      }
      var tx := db;
      if job !in tx.jobs {
        return Err(NotFound);
      }
      var row := tx.jobs[job];
      if row.lease.status != Leased || row.lease.leasedBy != Some(worker) {
        return Err(JobLease);
      }
      if row.lease.attempt < maxAttempts {
        tx := tx.(jobs := tx.jobs[job := row.(lease := Requeued(row.lease, now))]);
        tx := Logged(tx, worker, now, Noted("processing_job.requeued", job));
        db := tx;
        return Ok(Queued);
      }
      tx := tx.(jobs := tx.jobs[job := row.(lease := Parked(row.lease, DeadLetter))]);
      tx := Logged(tx, worker, now, Noted("processing_job.dead_lettered", job));
      if row.session !in tx.sessions {
        return Err(NotFound);
      }
      var ok;
      ok, tx := MoveSession(tx, row.session, Failed, worker, now);
      if !ok {
        return Err(InvalidTransition);
      }
      db := tx;
      return Ok(DeadLetter);
    }

    method RetryDeadLetterJob(job: Id, actor: Id, now: Time) returns (r: Result<Id>)
      modifies this
      ensures db == Pipeline.RetryDeadLetterJob(old(db), job, actor, now).After(old(db))
      ensures r == Pipeline.RetryDeadLetterJob(old(db), job, actor, now).Answer()
      ensures Inv(old(db)) ==> Inv(db)
    {
      if Inv(db) {
        Keeps.RetryDeadLetterJobKeeps(db, job, actor, now);
      }
      var tx := db;
      if job !in tx.jobs {
        return Err(NotFound);
      }
      var row := tx.jobs[job];
      if row.lease.status != DeadLetter {
        return Err(NotDeadLetter);
      }
      if row.session !in tx.sessions {
        return Err(NotFound);
      }
      var session := tx.sessions[row.session];
      if session.state != Failed {
        return Err(InvalidTransition);
      }
      if Pipeline.HasActiveJob(tx.jobs, row.session) {
        return Err(Conflict);
      }
      tx := tx.(jobs := tx.jobs[job := row.(lease := Retried(row.lease, now))]);
      tx := tx.(sessions := tx.sessions[row.session := session.(state := Processing, updatedAt := now)]);
      tx := Logged(tx, actor, now, Noted("processing_job.manual_retry", job));
      tx := Logged(tx, actor, now, ProcessingRecovered(row.session, session.state, Processing));
      db := tx;
      return Ok(job);
    }

    // review.go

    method ClaimReview(s: Id, reviewer: Id, duration: Time, now: Time) returns (r: Result<ReviewClaim>)
      modifies this
      ensures db == Reviews.ClaimReview(old(db), s, reviewer, duration, now).After(old(db))
      ensures r == Reviews.ClaimReview(old(db), s, reviewer, duration, now).Answer()
      ensures Inv(old(db)) ==> Inv(db)
    {
      if Inv(db) {
        Keeps.ClaimReviewKeeps(db, s, reviewer, duration, now);
      }
      if duration < Reviews.MINUTE || duration > 480 * Reviews.MINUTE {
        return Err(Invalid);
      }
      var tx := db;
      if s !in tx.sessions {
        return Err(NotFound);
      }
      if tx.sessions[s].state != ReadyForReview {
        return Err(InvalidTransition);
      }
      if s in tx.claims && tx.claims[s].expiresAt > now && tx.claims[s].reviewer != reviewer {
        return Err(ReviewClaimed);
      }
      var claim := ReviewClaim(reviewer, now, now + duration);
      tx := tx.(claims := tx.claims[s := claim]);
      tx := Logged(tx, reviewer, now, Noted("review.claimed", s));
      db := tx;
      return Ok(claim);
    }

    method ReleaseReview(s: Id, reviewer: Id, now: Time) returns (r: Result<Id>)
      modifies this
      ensures db == Reviews.ReleaseReview(old(db), s, reviewer, now).After(old(db))
      ensures r == Reviews.ReleaseReview(old(db), s, reviewer, now).Answer()
      ensures Inv(old(db)) ==> Inv(db)
    {
      if Inv(db) {
        Keeps.ReleaseReviewKeeps(db, s, reviewer, now);
      }
      var tx := db;
      if s !in tx.claims || tx.claims[s].reviewer != reviewer {
        return Err(ReviewLease);
      }
      tx := tx.(claims := tx.claims - {s});
      tx := Logged(tx, reviewer, now, Noted("review.released", s));
      db := tx;
      return Ok(s);
    }

    method SubmitReview(s: Id, reviewer: Id, decision: Decision, pii: PIIReview, document: Option<Reviews.RedactionRequest>,
                        requestId: Id, review: Id, plan: Id, job: Id, successor: Id, now: Time) returns (r: Result<Id>)
      modifies this
      ensures db == Reviews.SubmitReview(old(db), s, reviewer, decision, pii, document, requestId, review, plan, job, successor, now)
                    .After(old(db))
      ensures r == Reviews.SubmitReview(old(db), s, reviewer, decision, pii, document, requestId, review, plan, job, successor, now)
                   .Answer()
      ensures Inv(old(db)) ==> Inv(db)
    {
      if Inv(db) {
        Keeps.SubmitReviewKeeps(db, s, reviewer, decision, pii, document, requestId, review, plan, job, successor, now);
      }
      if decision == AcceptedDecision && pii != Passed {
        return Err(PIIGate);
      }
      if document.Some? && decision != AcceptedDecision {
        return Err(InvalidRedactionPlan);
      }
      var tx := db;
      if s !in tx.sessions {
        return Err(NotFound);
      }
      if tx.sessions[s].state != ReadyForReview {
        return Err(InvalidTransition);
      }
      if s !in tx.claims || tx.claims[s].reviewer != reviewer || tx.claims[s].expiresAt <= now {
        return Err(ReviewLease);
      }
      if review in tx.reviews {
        return Err(Conflict);
      }
      var refused;
      refused, tx := ConcludeReview(tx, s, reviewer, decision, pii, document, requestId, review, plan, job, successor, now);
      if refused.Some? {
        return Err(refused.value);
      }
      db := tx;
      return Ok(review);
    }

    /** The session moves in memory, its row and the review's rows are written, and its audit event follows theirs. */
    static method ConcludeReview(before: Db, s: Id, reviewer: Id, decision: Decision, pii: PIIReview,
                                 document: Option<Reviews.RedactionRequest>, requestId: Id, review: Id, plan: Id, job: Id,
                                 successor: Id, now: Time) returns (refused: Option<Error>, tx: Db)
      requires s in before.sessions && before.sessions[s].state == ReadyForReview
      requires document.Some? ==> decision == AcceptedDecision
      ensures refused == Reviews.WritesRefused(before, s, decision, requestId, document, plan, job, successor)
      ensures refused == None ==>
                var writes := Reviews.ReviewWrites(before, s, reviewer, decision, pii, document, requestId, review, plan, job,
                                                   successor, now);
                tx == Reviews.Concluded(writes, s, review, Reviews.Target(decision), reviewer, now)
    {
      var session := new Session(s, before.sessions[s].state, before.sessions[s].updatedAt);
      var ok := session.Transition(Reviews.Target(decision), reviewer, now);
      assert session.auditEvents == [AuditEvent(reviewer, now, Transitioned(s, ReadyForReview, Reviews.Target(decision)))];
      var moved := before.sessions[s].(state := session.state, updatedAt := session.updatedAt);
      refused, tx := WriteReview(before, s, moved, reviewer, decision, pii, document, requestId, review, plan, job, successor, now);
      if refused.Some? {
        return;
      }
      tx := tx.(claims := tx.claims - {s});
      tx := Logged(tx, reviewer, now, Noted("review.submitted", review));
      tx := tx.(audit := tx.audit + session.auditEvents);
    }

    /** The rows of a review: the session's own row is written before the plan's or the successor's. */
    static method WriteReview(before: Db, s: Id, moved: SessionRow, reviewer: Id, decision: Decision, pii: PIIReview,
                              document: Option<Reviews.RedactionRequest>, requestId: Id, review: Id, plan: Id, job: Id,
                              successor: Id, now: Time) returns (refused: Option<Error>, tx: Db)
      requires s in before.sessions && moved == before.sessions[s].(state := moved.state, updatedAt := moved.updatedAt)
      requires document.Some? ==> decision == AcceptedDecision
      ensures refused == Reviews.WritesRefused(before, s, decision, requestId, document, plan, job, successor)
      ensures refused == None ==>
                var writes := Reviews.ReviewWrites(before, s, reviewer, decision, pii, document, requestId, review, plan, job,
                                                   successor, now);
                writes.sessions[s] == before.sessions[s] && tx == writes.(sessions := writes.sessions[s := moved])
    {
      tx := before.(reviews := before.reviews[review := Review(s, reviewer, decision, pii, now)]);
      tx := tx.(sessions := tx.sessions[s := moved]);
      if document.Some? {
        refused, tx := InsertPlan(tx, s, reviewer, requestId, document.value, plan, job, now);
        return;
      }
      if decision == ReworkDecision {
        Evo.SuccessorSame(before.sessions, s, moved);
        if successor in tx.sessions || Reviews.HasSuccessor(tx.sessions, s) {
          return Some(Conflict), tx;
        }
        var row := SessionRow(moved.assignment, Assigned, None, Some(s), now);
        assert before.sessions[s := moved][successor := row] == before.sessions[successor := row][s := moved];
        tx := tx.(sessions := tx.sessions[successor := row]);
        tx := Logged(tx, reviewer, now, ReworkAssigned(successor, s));
      }
      return None, tx;
    }

    static method InsertPlan(tx: Db, s: Id, reviewer: Id, requestId: Id, document: Reviews.RedactionRequest, plan: Id, job: Id,
                             now: Time) returns (refused: Option<Error>, written: Db)
      ensures refused == Reviews.PlanRefused(tx, s, requestId, Some(document), plan, job)
      ensures refused == None ==> written == Reviews.Planned(tx, s, reviewer, requestId, document.documentHash, plan, job, now)
    {
      written := tx;
      if HasDeletion(tx.deletions, s, PendingDeletion) {
        return Some(DeletionPending), written;
      }
      if !Reviews.CoversVideos(tx.artifacts, s, document.videos) {
        return Some(RedactionEligibility), written;
      }
      if plan in tx.plans || job in tx.redactions || Reviews.PlanTaken(tx.plans, s, requestId) {
        return Some(Conflict), written;
      }
      written := written.(plans := tx.plans[plan := Plan(s, reviewer, requestId, document.documentHash, now)]);
      written := written.(redactions := tx.redactions[job := RedactionJob(plan, s, None, None, Fresh(now))]);
      written := Logged(written, reviewer, now, Noted("redaction_plan.approved", plan));
      written := Logged(written, reviewer, now, Noted("redaction_job.queued", job));
      return None, written;
    }

    // redaction.go

    /** The plan an earlier request of the same name made for the session, if any. */
    static method FindPlan(tx: Db, s: Id, requestId: Id) returns (found: Option<Id>)
      ensures Reviews.LookedUp(tx.plans, s, requestId, found)
    {
      var todo := tx.plans.Keys;
      while todo != {}
        invariant todo <= tx.plans.Keys
        invariant forall p | p in tx.plans && p !in todo :: !(tx.plans[p].session == s && tx.plans[p].requestId == requestId)
        decreases |todo|
      {
        ghost var some := Pick(todo);
        var p: Id :| p in todo;
        if tx.plans[p].session == s && tx.plans[p].requestId == requestId {
          return Some(p);
        }
        todo := todo - {p};
      }
      return None;
    }

    method CreateRedactionPlan(s: Id, reviewer: Id, requestId: Id, document: Reviews.RedactionRequest, plan: Id, job: Id, now: Time)
      returns (existing: Option<Id>, r: Result<Id>)
      modifies this
      ensures Reviews.LookedUp(old(db).plans, s, requestId, existing)
      ensures db == Reviews.CreateRedactionPlan(old(db), s, reviewer, requestId, document, existing, plan, job, now).After(old(db))
      ensures r == Reviews.CreateRedactionPlan(old(db), s, reviewer, requestId, document, existing, plan, job, now).Answer()
      ensures Inv(old(db)) ==> Inv(db)
    {
      var tx := db;
      existing := FindPlan(tx, s, requestId);
      if Inv(db) {
        Keeps.CreateRedactionPlanKeeps(db, s, reviewer, requestId, document, existing, plan, job, now);
      }
      if existing.Some? {
        if tx.plans[existing.value].documentHash != document.documentHash || tx.plans[existing.value].reviewer != reviewer {
          return existing, Err(RedactionConflict);
        }
        return existing, Ok(existing.value);
      }
      if s !in tx.sessions {
        return existing, Err(NotFound);
      }
      if tx.sessions[s].state != Accepted || !Reviews.AcceptedBefore(tx.reviews, s) {
        return existing, Err(RedactionEligibility);
      }
      var refused;
      refused, tx := InsertPlan(tx, s, reviewer, requestId, document, plan, job, now);
      if refused.Some? {
        return existing, Err(refused.value);
      }
      db := tx;
      return existing, Ok(plan);
    }

    method ClaimRedactionJob(worker: Id, duration: Time, now: Time, locked: set<Id>) returns (job: Option<Id>, r: Result<Id>)
      modifies this
      ensures FirstOf(RedactionLeases(old(db)), locked, now, job)
      ensures job == None ==> db == old(db) && r == Err(if duration <= 0 then Invalid else NoJob)
      ensures job.Some? ==> db == Reviews.ClaimRedactionJob(old(db), job.value, worker, duration, now).After(old(db))
      ensures job.Some? ==> r == Reviews.ClaimRedactionJob(old(db), job.value, worker, duration, now).Answer()
      ensures Inv(old(db)) ==> Inv(db)
    {
      job := FirstClaimable(RedactionLeases(db), locked, now);
      if Inv(db) && job.Some? {
        Keeps.ClaimRedactionJobKeeps(db, job.value, worker, duration, now);
      }
      if duration <= 0 {
        return job, Err(Invalid);
      }
      if job == None {
        return job, Err(NoJob);
      }
      var tx := db;
      var row := tx.redactions[job.value];
      if row.session !in tx.sessions {
        return job, Err(NotFound);
      }
      if tx.sessions[row.session].state != Accepted {
        return job, Err(InvalidTransition);
      }
      if HasDeletion(tx.deletions, row.session, PendingDeletion) {
        return job, Err(DeletionPending);
      }
      tx := tx.(redactions := tx.redactions[job.value := row.(lease := Claimed(row.lease, worker, duration, now))]);
      tx := Logged(tx, worker, now, Noted("redaction_job.leased", job.value));
      db := tx;
      return job, Ok(job.value);
    }

    method CompleteRedactionJob(job: Id, worker: Id, manifestPlan: Id, now: Time) returns (r: Result<Id>)
      modifies this
      ensures db == Reviews.CompleteRedactionJob(old(db), job, worker, manifestPlan, now).After(old(db))
      ensures r == Reviews.CompleteRedactionJob(old(db), job, worker, manifestPlan, now).Answer()
      ensures Inv(old(db)) ==> Inv(db)
    {
      if Inv(db) {
        Keeps.CompleteRedactionJobKeeps(db, job, worker, manifestPlan, now);
      }
      var tx := db;
      if job !in tx.redactions {
        return Err(NotFound);
      }
      var row := tx.redactions[job];
      if row.lease.status != Leased || row.lease.leasedBy != Some(worker) {
        return Err(JobLease);
      }
      if manifestPlan != row.plan {
        return Err(Invalid);
      }
      tx := tx.(redactions := tx.redactions[job := row.(finishedAt := Some(now), lease := Parked(row.lease, Completed))]);
      tx := Logged(tx, worker, now, Noted("redaction_job.completed", job));
      db := tx;
      return Ok(job);
    }

    method RequeueRedactionJob(job: Id, worker: Id, maxAttempts: int, now: Time) returns (r: Result<Status>)
      modifies this
      ensures db == Reviews.RequeueRedactionJob(old(db), job, worker, maxAttempts, now).After(old(db))
      ensures r == Reviews.RequeueRedactionJob(old(db), job, worker, maxAttempts, now).Answer()
      ensures Inv(old(db)) ==> Inv(db)
    {
      if Inv(db) {
        Keeps.RequeueRedactionJobKeeps(db, job, worker, maxAttempts, now);
      }
      if maxAttempts < 1 {
        return Err(Invalid);
      }
      var tx := db;
      if job !in tx.redactions {
        return Err(NotFound);
      }
      var row := tx.redactions[job];
      if row.lease.status != Leased || row.lease.leasedBy != Some(worker) {
        return Err(JobLease);
      }
      var action := "redaction_job.requeued";
      if row.lease.attempt < maxAttempts {
        row := row.(lease := Requeued(row.lease, now));
      } else {
        action := "redaction_job.dead_lettered";
        row := row.(finishedAt := Some(now), lease := Parked(row.lease, DeadLetter));
      }
      tx := tx.(redactions := tx.redactions[job := row]);
      tx := Logged(tx, worker, now, Noted(action, job));
      db := tx;
      return Ok(row.lease.status);
    }

    method RetryDeadLetterRedactionJob(job: Id, actor: Id, now: Time) returns (r: Result<Id>)
      modifies this
      ensures db == Reviews.RetryDeadLetterRedactionJob(old(db), job, actor, now).After(old(db))
      ensures r == Reviews.RetryDeadLetterRedactionJob(old(db), job, actor, now).Answer()
      ensures Inv(old(db)) ==> Inv(db)
    {
      if Inv(db) {
        Keeps.RetryDeadLetterRedactionJobKeeps(db, job, actor, now);
      }
      var tx := db;
      if job !in tx.redactions {
        return Err(NotFound);
      }
      var row := tx.redactions[job];
      if row.lease.status != DeadLetter {
        return Err(NotDeadLetter);
      }
      if row.session !in tx.sessions {
        return Err(NotFound);
      }
      if tx.sessions[row.session].state != Accepted {
        return Err(InvalidTransition);
      }
      if HasDeletion(tx.deletions, row.session, PendingDeletion) {
        return Err(DeletionPending);
      }
      tx := tx.(redactions := tx.redactions[job := row.(finishedAt := None, lease := Retried(row.lease, now))]);
      tx := Logged(tx, actor, now, Noted("redaction_job.manual_retry", job));
      db := tx;
      return Ok(job);
    }

    // erasure.go

    method PlaceLegalHold(s: Id, hold: Id, reason: string, actor: Id, now: Time) returns (r: Result<Id>)
      modifies this
      ensures db == Erasures.PlaceLegalHold(old(db), s, hold, reason, actor, now).After(old(db))
      ensures r == Erasures.PlaceLegalHold(old(db), s, hold, reason, actor, now).Answer()
      ensures Inv(old(db)) ==> Inv(db)
    {
      if Inv(db) {
        Keeps.PlaceLegalHoldKeeps(db, s, hold, reason, actor, now);
      }
      if |reason| < 3 || |reason| > 2000 {
        return Err(Invalid);
      }
      var tx := db;
      if s !in tx.sessions || OrganizationOf(tx, s) == None {
        return Err(NotFound);
      }
      if tx.sessions[s].state == Deleted {
        return Err(DeletionNotAllowed);
      }
      if HasDeletion(tx.deletions, s, {Leased}) {
        return Err(DeletionInProgress);
      }
      if Erasures.PurgeLeasedFor(tx.purges, tx.members, s) {
        return Err(RetentionPurgeInProgress);
      }
      if s in Held(tx.holds) {
        return Err(LegalHoldExists);
      }
      if hold in tx.holds {
        return Err(Conflict);
      }
      tx := tx.(holds := tx.holds[hold := LegalHold(s, None)]);
      tx := Logged(tx, actor, now, Noted("legal_hold.placed", hold));
      db := tx;
      return Ok(hold);
    }

    method ReleaseLegalHold(s: Id, hold: Id, actor: Id, now: Time) returns (r: Result<Id>)
      modifies this
      ensures db == Erasures.ReleaseLegalHold(old(db), s, hold, actor, now).After(old(db))
      ensures r == Erasures.ReleaseLegalHold(old(db), s, hold, actor, now).Answer()
      ensures Inv(old(db)) ==> Inv(db)
    {
      if Inv(db) {
        Keeps.ReleaseLegalHoldKeeps(db, s, hold, actor, now);
      }
      var tx := db;
      if hold !in tx.holds || tx.holds[hold].session != s || tx.holds[hold].releasedAt != None {
        return Err(NotFound);
      }
      tx := tx.(holds := tx.holds[hold := tx.holds[hold].(releasedAt := Some(now))]);
      tx := tx.(deletions := Erasures.UnblockDeletions(tx.deletions, s, now));
      tx := tx.(purges := Erasures.UnblockPurges(tx.purges, tx.members, s, now));
      tx := Logged(tx, actor, now, Noted("legal_hold.released", hold));
      db := tx;
      return Ok(hold);
    }

    method RequestSessionDeletion(s: Id, request: Id, reason: string, actor: Id, now: Time) returns (r: Result<Id>)
      modifies this
      ensures db == Erasures.RequestSessionDeletion(old(db), s, request, reason, actor, now).After(old(db))
      ensures r == Erasures.RequestSessionDeletion(old(db), s, request, reason, actor, now).Answer()
      ensures Inv(old(db)) ==> Inv(db)
    {
      if Inv(db) {
        Keeps.RequestSessionDeletionKeeps(db, s, request, reason, actor, now);
      }
      if |reason| < 3 || |reason| > 2000 {
        return Err(Invalid);
      }
      var tx := db;
      if s !in tx.sessions || OrganizationOf(tx, s) == None {
        return Err(NotFound);
      }
      if tx.sessions[s].state !in Erasures.DeletableStates {
        return Err(DeletionNotAllowed);
      }
      if s in Held(tx.holds) {
        return Err(LegalHoldActive);
      }
      if HasRedaction(tx.redactions, s, RunningRedaction) {
        return Err(RedactionInProgress);
      }
      if HasDeletion(tx.deletions, s, ActiveDeletion) {
        return Err(DeletionPending);
      }
      if request in tx.deletions {
        return Err(Conflict);
      }
      tx := tx.(deletions := tx.deletions[request := DeletionRequest(s, Fresh(now))]);
      tx := Logged(tx, actor, now, Noted("session.deletion_requested", request));
      db := tx;
      return Ok(request);
    }

    /** Joined with sessions: a request whose session row is missing is never selected. */
    method ClaimDeletionRequest(worker: Id, duration: Time, now: Time, locked: set<Id>) returns (request: Option<Id>, r: Result<Status>)
      modifies this
      ensures FirstOf(DeletionLeases(old(db)), locked, now, request)
      ensures request == None ==> db == old(db) && r == Err(NoJob)
      ensures request.Some? ==> db == Erasures.ClaimDeletionRequest(old(db), request.value, worker, duration, now).After(old(db))
      ensures request.Some? ==> r == Erasures.ClaimDeletionRequest(old(db), request.value, worker, duration, now).Answer()
      ensures Inv(old(db)) ==> Inv(db)
    {
      request := FirstClaimable(DeletionLeases(db), locked, now);
      if Inv(db) && request.Some? {
        Keeps.ClaimDeletionRequestKeeps(db, request.value, worker, duration, now);
      }
      if request == None {
        return request, Err(NoJob);
      }
      var tx := db;
      var row := tx.deletions[request.value];
      if tx.sessions[row.session].state !in Erasures.DeletableStates {
        row := row.(lease := Parked(row.lease, DeadLetter));
        tx := tx.(deletions := tx.deletions[request.value := row]);
        tx := Logged(tx, worker, now, Noted("session.deletion_dead_letter", request.value));
        db := tx;
        return request, Ok(DeadLetter);
      }
      if row.session in Held(tx.holds) {
        row := row.(lease := Parked(row.lease, Blocked));
        tx := tx.(deletions := tx.deletions[request.value := row]);
        tx := Logged(tx, worker, now, Noted("session.deletion_blocked", request.value));
        db := tx;
        return request, Ok(Blocked);
      }
      row := row.(lease := Claimed(row.lease, worker, duration, now));
      tx := tx.(deletions := tx.deletions[request.value := row]);
      db := tx;
      return request, Ok(Leased);
    }

    method RequeueDeletionRequest(request: Id, worker: Id, maxAttempts: int, now: Time) returns (r: Result<Status>)
      modifies this
      ensures db == Erasures.RequeueDeletionRequest(old(db), request, worker, maxAttempts, now).After(old(db))
      ensures r == Erasures.RequeueDeletionRequest(old(db), request, worker, maxAttempts, now).Answer()
      ensures Inv(old(db)) ==> Inv(db)
    {
      if Inv(db) {
        Keeps.RequeueDeletionRequestKeeps(db, request, worker, maxAttempts, now);
      }
      var tx := db;
      if request !in tx.deletions {
        return Err(NotFound);
      }
      var row := tx.deletions[request];
      if row.lease.status != Leased || row.lease.leasedBy != Some(worker) {
        return Err(JobLease);
      }
      var nextState := Queued;
      var availableAt := now + row.lease.attempt * row.lease.attempt * SECOND;
      if row.lease.attempt >= maxAttempts {
        nextState := DeadLetter;
        availableAt := now;
      }
      row := row.(lease := Parked(row.lease, nextState).(availableAt := availableAt));
      tx := tx.(deletions := tx.deletions[request := row]);
      tx := Logged(tx, worker, now, Noted(Erasures.DeletionNote(nextState), request));
      db := tx;
      return Ok(nextState);
    }

    method CompleteDeletionRequest(request: Id, worker: Id, now: Time) returns (r: Result<Id>)
      modifies this
      ensures db == Erasures.CompleteDeletionRequest(old(db), request, worker, now).After(old(db))
      ensures r == Erasures.CompleteDeletionRequest(old(db), request, worker, now).Answer()
      ensures Inv(old(db)) ==> Inv(db)
    {
      if Inv(db) {
        Keeps.CompleteDeletionRequestKeeps(db, request, worker, now);
      }
      var tx := db;
      if request !in tx.deletions {
        return Err(NotFound);
      }
      var row := tx.deletions[request];
      var s := row.session;
      if row.lease.status != Leased || row.lease.leasedBy != Some(worker) {
        return Err(JobLease);
      }
      if s in Held(tx.holds) {
        return Err(LegalHoldActive);
      }
      if s in tx.sessions {
        tx := tx.(sessions := tx.sessions[s := tx.sessions[s].(state := Deleted, consent := None, updatedAt := now)]);
      }
      tx := tx.(claims := tx.claims - {s});
      tx := tx.(reviews := map x | x in tx.reviews && tx.reviews[x].session != s :: tx.reviews[x]);
      tx := tx.(results := map v | v in tx.results && tx.results[v].session != s :: tx.results[v]);
      tx := tx.(redactions := map j | j in tx.redactions && tx.redactions[j].session != s :: tx.redactions[j]);
      tx := tx.(plans := map p | p in tx.plans && tx.plans[p].session != s :: tx.plans[p]);
      tx := tx.(artifacts := map k | k in tx.artifacts && k.session != s :: tx.artifacts[k]);
      tx := tx.(jobs := map j | j in tx.jobs && tx.jobs[j].session != s :: tx.jobs[j]);
      tx := tx.(deletions := tx.deletions[request := row.(lease := Parked(row.lease, Completed))]);
      tx := Logged(tx, worker, now, SessionDeleted(s));
      db := tx;
      return Ok(s);
    }

    method RetryDeadLetterDeletionRequest(request: Id, actor: Id, now: Time) returns (r: Result<Id>)
      modifies this
      ensures db == Erasures.RetryDeadLetterDeletionRequest(old(db), request, actor, now).After(old(db))
      ensures r == Erasures.RetryDeadLetterDeletionRequest(old(db), request, actor, now).Answer()
      ensures Inv(old(db)) ==> Inv(db)
    {
      if Inv(db) {
        Keeps.RetryDeadLetterDeletionRequestKeeps(db, request, actor, now);
      }
      var tx := db;
      if request !in tx.deletions {
        return Err(NotFound);
      }
      var row := tx.deletions[request];
      if row.lease.status != DeadLetter {
        return Err(NotDeadLetter);
      }
      if row.session !in tx.sessions {
        return Err(NotFound);
      }
      if tx.sessions[row.session].state !in Erasures.DeletableStates {
        return Err(DeletionNotAllowed);
      }
      if row.session in Held(tx.holds) {
        return Err(LegalHoldActive);
      }
      if HasDeletion(tx.deletions, row.session, ActiveDeletion) {
        return Err(Conflict);
      }
      tx := tx.(deletions := tx.deletions[request := row.(lease := Retried(row.lease, now))]);
      tx := Logged(tx, actor, now, Noted("session.deletion_manual_retry", request));
      db := tx;
      return Ok(request);
    }

    // retention.go and retention_expiry.go

    method UpsertRetentionPolicy(organization: Id, rawDays: int, derivedDays: int, releaseDays: int, actor: Id, now: Time)
      returns (r: Result<Id>)
      modifies this
      ensures db == Retentions.UpsertRetentionPolicy(old(db), organization, rawDays, derivedDays, releaseDays, actor, now).After(old(db))
      ensures r == Retentions.UpsertRetentionPolicy(old(db), organization, rawDays, derivedDays, releaseDays, actor, now).Answer()
      ensures Inv(old(db)) ==> Inv(db)
    {
      if Inv(db) {
        Keeps.UpsertRetentionPolicyKeeps(db, organization, rawDays, derivedDays, releaseDays, actor, now);
      }
      if rawDays < 1 || rawDays > 3650 || derivedDays < 1 || derivedDays > 3650 || releaseDays < 1 || releaseDays > 3650 {
        return Err(Invalid);
      }
      var tx := db;
      if exists q | q in tx.purges :: tx.purges[q].organization == organization && tx.purges[q].lease.status == Leased {
        return Err(RetentionPurgeInProgress);
      }
      tx := tx.(policies := tx.policies[organization := Policy(rawDays, derivedDays, releaseDays, now)]);
      tx := Logged(tx, actor, now, Noted("retention_policy.updated", organization));
      db := tx;
      return Ok(organization);
    }

    method QueueExpiredRetention(limit: nat, ids: seq<Id>, actor: Id, now: Time) returns (r: Result<nat>)
      modifies this
      ensures db == Retentions.QueueExpiredRetention(old(db), limit, ids, actor, now).After(old(db))
      ensures r == Retentions.QueueExpiredRetention(old(db), limit, ids, actor, now).Answer()
      ensures Inv(old(db)) ==> Inv(db)
    {
      if Inv(db) {
        Keeps.QueueExpiredRetentionKeeps(db, limit, ids, actor, now);
      }
      if limit < 1 || limit > 1000 || |ids| < limit {
        return Err(Invalid);
      }
      var tx, queued := InsertCandidates(db, Retentions.Batch(db, limit, now), ids, actor, now);
      db := tx;
      return Ok(queued);
    }

    static method InsertCandidates(source: Db, candidates: seq<Resource>, ids: seq<Id>, actor: Id, now: Time)
      returns (tx: Db, queued: nat)
      requires |candidates| <= |ids|
      ensures tx == Retentions.QueueEach(source, candidates, ids, actor, now)
      ensures queued == |tx.audit| - |source.audit|
    {
      tx, queued := source, 0;
      for i := 0 to |candidates|
        invariant tx == Retentions.QueueEach(source, candidates[..i], ids, actor, now)
        invariant queued == |tx.audit| - |source.audit|
      {
        assert candidates[..i + 1][..i] == candidates[..i];
        var inserted;
        var organization := Retentions.OrganizationOfResource(source, candidates[i]);
        inserted, tx := InsertCandidate(tx, organization, Retentions.PolicyOf(source, organization), candidates[i], ids[i], actor, now);
        if inserted {
          queued := queued + 1;
        }
      }
      assert candidates[..|candidates|] == candidates;
    }

    /** INSERT ... ON CONFLICT DO NOTHING, and the audit event of a row that went in. */
    static method InsertCandidate(before: Db, organization: Option<Id>, policy: Option<Policy>, candidate: Resource, id: Id,
                                  actor: Id, now: Time) returns (inserted: bool, tx: Db)
      ensures tx == Retentions.Inserted(before, organization, policy, candidate, id, actor, now)
      ensures inserted ==> |tx.audit| == |before.audit| + 1
      ensures !inserted ==> tx == before
    {
      if organization.None? || policy.None? || id in before.purges
         || Retentions.PurgeRequested(before.purges, candidate, Retentions.ActivePurge) {
        return false, before;
      }
      tx := before.(purges := before.purges[id := PurgeRequest(organization.value, candidate, policy.value.updatedAt, Fresh(now))]);
      tx := Logged(tx, actor, now, Noted("retention.purge_queued", id));
      return true, tx;
    }

    method ClaimRetentionPurge(worker: Id, duration: Time, now: Time, locked: set<Id>) returns (request: Option<Id>, r: Result<Status>)
      modifies this
      ensures FirstOf(PurgeLeases(old(db)), locked, now, request)
      ensures request == None ==> db == old(db) && r == Err(NoJob)
      ensures request.Some? ==> db == Retentions.ClaimRetentionPurge(old(db), request.value, worker, duration, now).After(old(db))
      ensures request.Some? ==> r == Retentions.ClaimRetentionPurge(old(db), request.value, worker, duration, now).Answer()
      ensures Inv(old(db)) ==> Inv(db)
    {
      request := FirstClaimable(PurgeLeases(db), locked, now);
      if Inv(db) && request.Some? {
        Keeps.ClaimRetentionPurgeKeeps(db, request.value, worker, duration, now);
      }
      if request == None {
        return request, Err(NoJob);
      }
      var tx := db;
      var row := tx.purges[request.value];
      if row.organization !in tx.policies {
        return request, Err(NotFound);
      }
      var eligible := Retentions.StillEligible(tx, row, now);
      var next;
      if tx.policies[row.organization].updatedAt != row.policyUpdatedAt || !eligible {
        next := Parked(row.lease, Status.Cancelled);
        tx := Logged(tx, worker, now, Noted("retention.purge_cancelled", request.value));
      } else if TouchesHeld(row.resource, tx.members, tx.holds) {
        next := Parked(row.lease, Blocked);
        tx := Logged(tx, worker, now, Noted("retention.purge_blocked", request.value));
      } else {
        next := Claimed(row.lease, worker, duration, now);
      }
      tx := tx.(purges := tx.purges[request.value := row.(lease := next)]);
      db := tx;
      return request, Ok(next.status);
    }

    method RequeueRetentionPurge(request: Id, worker: Id, maxAttempts: int, now: Time) returns (r: Result<Status>)
      modifies this
      ensures db == Retentions.RequeueRetentionPurge(old(db), request, worker, maxAttempts, now).After(old(db))
      ensures r == Retentions.RequeueRetentionPurge(old(db), request, worker, maxAttempts, now).Answer()
      ensures Inv(old(db)) ==> Inv(db)
    {
      if Inv(db) {
        Keeps.RequeueRetentionPurgeKeeps(db, request, worker, maxAttempts, now);
      }
      var tx := db;
      if request !in tx.purges {
        return Err(NotFound);
      }
      var row := tx.purges[request];
      if row.lease.status != Leased || row.lease.leasedBy != Some(worker) {
        return Err(JobLease);
      }
      var nextState := Queued;
      var availableAt := now + row.lease.attempt * row.lease.attempt * SECOND;
      if row.lease.attempt >= maxAttempts {
        nextState := DeadLetter;
        availableAt := now;
      }
      row := row.(lease := Parked(row.lease, nextState).(availableAt := availableAt));
      tx := tx.(purges := tx.purges[request := row]);
      tx := Logged(tx, worker, now, Noted(Retentions.PurgeNote(nextState), request));
      db := tx;
      return Ok(nextState);
    }

    method CompleteRetentionPurge(request: Id, worker: Id, now: Time) returns (r: Result<Id>)
      modifies this
      ensures db == Retentions.CompleteRetentionPurge(old(db), request, worker, now).After(old(db))
      ensures r == Retentions.CompleteRetentionPurge(old(db), request, worker, now).Answer()
      ensures Inv(old(db)) ==> Inv(db)
    {
      if Inv(db) {
        Keeps.CompleteRetentionPurgeKeeps(db, request, worker, now);
      }
      var tx := db;
      if request !in tx.purges {
        return Err(NotFound);
      }
      var row := tx.purges[request];
      if row.lease.status != Leased || row.lease.leasedBy != Some(worker) {
        return Err(JobLease);
      }
      if TouchesHeld(row.resource, tx.members, tx.holds) {
        return Err(LegalHoldActive);
      }
      tx := Retentions.MarkPurged(tx, row.resource, now);
      tx := tx.(purges := db.purges[request := row.(lease := Parked(row.lease, Completed))]);
      tx := Logged(tx, worker, now, Noted("retention.purge_completed", request));
      db := tx;
      return Ok(request);
    }

    method RetryDeadLetterRetentionPurge(request: Id, actor: Id, now: Time) returns (r: Result<Id>)
      modifies this
      ensures db == Retentions.RetryDeadLetterRetentionPurge(old(db), request, actor, now).After(old(db))
      ensures r == Retentions.RetryDeadLetterRetentionPurge(old(db), request, actor, now).Answer()
      ensures Inv(old(db)) ==> Inv(db)
    {
      if Inv(db) {
        Keeps.RetryDeadLetterRetentionPurgeKeeps(db, request, actor, now);
      }
      var tx := db;
      if request !in tx.purges {
        return Err(NotFound);
      }
      var row := tx.purges[request];
      if row.lease.status != DeadLetter {
        return Err(NotDeadLetter);
      }
      if Retentions.PurgeRequested(tx.purges, row.resource, Retentions.ActivePurge) {
        return Err(Conflict);
      }
      row := row.(lease := row.lease.(status := Queued, attempt := 0, availableAt := now, leasedBy := None, expiresAt := None));
      tx := tx.(purges := tx.purges[request := row]);
      tx := Logged(tx, actor, now, Noted("retention.purge_manual_retry", request));
      db := tx;
      return Ok(request);
    }

    // release.go

    static method FindRelease(tx: Db, project: Id, name: Id) returns (found: Option<Id>)
      ensures Releases.NameLookup(tx.releases, project, name, found)
    {
      var todo := tx.releases.Keys;
      while todo != {}
        invariant todo <= tx.releases.Keys
        invariant forall x | x in tx.releases && x !in todo :: !(tx.releases[x].project == project && tx.releases[x].name == name)
        decreases |todo|
      {
        ghost var some := Pick(todo);
        var x: Id :| x in todo;
        if tx.releases[x].project == project && tx.releases[x].name == name {
          return Some(x);
        }
        todo := todo - {x};
      }
      return None;
    }

    /** Releasing some sessions leaves those after them accepted. */
    static lemma {:induction false} RestAccepted(before: Db, release: Id, sessions: seq<Id>, i: nat, actor: Id, now: Time)
      requires Releases.Distinct(sessions) && Releases.AllAccepted(before.sessions, sessions) && i <= |sessions|
      ensures Releases.AllAccepted(Releases.ReleaseEach(before, release, sessions[..i], actor, now).sessions, sessions[i..])
    {
      if i > 0 {
        RestAccepted(before, release, sessions, i - 1, actor, now);
        assert sessions[..i][..i - 1] == sessions[..i - 1];
        var earlier := Releases.ReleaseEach(before, release, sessions[..i - 1], actor, now);
        assert forall s | s in sessions[i..] :: s in sessions[i - 1..] && s != sessions[i - 1];
      }
    }

    static lemma OneMoreReleased(before: Db, release: Id, sessions: seq<Id>, i: nat, actor: Id, now: Time)
      requires Releases.Distinct(sessions) && Releases.AllAccepted(before.sessions, sessions) && i < |sessions|
      ensures var tx := Releases.ReleaseEach(before, release, sessions[..i], actor, now);
              && sessions[i] in tx.sessions && tx.sessions[sessions[i]].state == Accepted
              && Releases.ReleaseEach(before, release, sessions[..i + 1], actor, now)
                 == Moved(tx.(members := tx.members[sessions[i] := release]), sessions[i], SessionState.Released, actor, now)
    {
      assert sessions[..i + 1][..i] == sessions[..i];
      RestAccepted(before, release, sessions, i, actor, now);
      assert sessions[i] in sessions[i..];
    }

    static method ReleaseSession(before: Db, release: Id, s: Id, actor: Id, now: Time) returns (tx: Db)
      requires s in before.sessions && before.sessions[s].state == Accepted
      ensures tx == Moved(before.(members := before.members[s := release]), s, SessionState.Released, actor, now)
    {
      var ok;
      ok, tx := MoveSession(before.(members := before.members[s := release]), s, SessionState.Released, actor, now);
    }

    static method ReleaseSessions(before: Db, release: Id, sessions: seq<Id>, actor: Id, now: Time) returns (tx: Db)
      requires Releases.Distinct(sessions) && Releases.AllAccepted(before.sessions, sessions)
      ensures tx == Releases.ReleaseEach(before, release, sessions, actor, now)
    {
      tx := before;
      for i := 0 to |sessions|
        invariant tx == Releases.ReleaseEach(before, release, sessions[..i], actor, now)
      {
        OneMoreReleased(before, release, sessions, i, actor, now);
        tx := ReleaseSession(tx, release, sessions[i], actor, now);
      }
      assert sessions[..|sessions|] == sessions;
    }

    method CommitRelease(meta: Releases.ReleaseMeta, sources: seq<Id>, actor: Id, now: Time) returns (found: Option<Id>, r: Result<Id>)
      modifies this
      ensures Releases.NameLookup(old(db).releases, meta.project, meta.name, found)
      ensures db == Releases.CommitRelease(old(db), meta, sources, found, actor, now).After(old(db))
      ensures r == Releases.CommitRelease(old(db), meta, sources, found, actor, now).Answer()
      ensures Inv(old(db)) && Runs.Vouched(old(db), ControlPlane.Export(meta.project, sources)) ==> Inv(db)
    {
      var tx := db;
      found := FindRelease(tx, meta.project, meta.name);
      if Inv(db) && Runs.Vouched(db, ControlPlane.Export(meta.project, sources)) {
        Runs.CommitReleaseKeeps(db, meta, sources, found, actor, now);
      }
      if sources == [] {
        return found, Err(Invalid);
      }
      if found.Some? {
        var existing := tx.releases[found.value];
        if found.value != meta.id || existing.configurationHash != meta.configurationHash || existing.manifestHash != meta.manifestHash {
          return found, Err(ReleaseConflict);
        }
        return found, Ok(found.value);
      }
      // One row per distinct source; fewer rows than sources means a repeated or missing session.
      if !Releases.Distinct(sources) || !Releases.AllAccepted(tx.sessions, sources) {
        return found, Err(ReleaseEligibility);
      }
      if Releases.AnyDeletion(tx.deletions, sources) {
        return found, Err(ReleaseEligibility);
      }
      if meta.id in tx.releases || Releases.AnyMember(tx.members, sources) {
        return found, Err(Conflict);
      }
      var row := Release(meta.project, meta.name, meta.configurationHash, meta.manifestHash, sources, now, None);
      tx := tx.(releases := tx.releases[meta.id := row]);
      tx := ReleaseSessions(tx, meta.id, Releases.LockOrder(sources), actor, now);
      tx := Logged(tx, actor, now, Noted("dataset_release.created", meta.id));
      db := tx;
      return found, Ok(meta.id);
    }
  }

  function JobLeases(db: Db): map<Id, Lease> {
    map j | j in db.jobs :: db.jobs[j].lease
  }

  function RedactionLeases(db: Db): map<Id, Lease> {
    map j | j in db.redactions :: db.redactions[j].lease
  }

  /** Requests whose session row exists. */
  function DeletionLeases(db: Db): map<Id, Lease> {
    map d | d in db.deletions && db.deletions[d].session in db.sessions :: db.deletions[d].lease
  }

  function PurgeLeases(db: Db): map<Id, Lease> {
    map q | q in db.purges :: db.purges[q].lease
  }
}
