/** What holds of every reachable database. Each predicate names the tables it speaks about, and each speaks
    row by row. */
module Invariants {
  import opened Common
  import opened Sessions
  import opened Queues
  import opened Tables
  import opened ReviewSteps
  import opened ReleaseSteps
  import opened Audit

  // Legal holds against the two deleting queues.

  /** A leased deletion's session is not held; a blocked one's is. */
  ghost predicate RespectsHold(d: DeletionRequest, holds: map<Id, LegalHold>) {
    && (d.lease.status == Leased ==> d.session !in Held(holds))
    && (d.lease.status == Blocked ==> d.session in Held(holds))
  }

  ghost predicate DeletionsRespectHolds(holds: map<Id, LegalHold>, deletions: map<Id, DeletionRequest>) {
    forall d | d in deletions :: RespectsHold(deletions[d], holds)
  }

  /** The same for a purge of a session's raw or derived data or of a release containing the session. */
  ghost predicate PurgeRespectsHold(q: PurgeRequest, holds: map<Id, LegalHold>, members: map<Id, Id>) {
    && (q.lease.status == Leased ==> !TouchesHeld(q.resource, members, holds))
    && (q.lease.status == Blocked ==> TouchesHeld(q.resource, members, holds))
  }

  ghost predicate PurgesRespectHolds(holds: map<Id, LegalHold>, purges: map<Id, PurgeRequest>, members: map<Id, Id>) {
    forall q | q in purges :: PurgeRespectsHold(purges[q], holds, members)
  }

  /** A leased purge was queued under the policy that is still in force, and a purge of a release names one. */
  ghost predicate PurgeGrounded(q: PurgeRequest, policies: map<Id, Policy>, releases: map<Id, Release>) {
    && (q.lease.status == Leased ==>
          q.organization in policies && policies[q.organization].updatedAt == q.policyUpdatedAt)
    && (q.resource.ReleaseObjects? ==> q.resource.release in releases)
  }

  ghost predicate PurgesGrounded(policies: map<Id, Policy>, purges: map<Id, PurgeRequest>, releases: map<Id, Release>) {
    forall q | q in purges :: PurgeGrounded(purges[q], policies, releases)
  }

  ghost predicate OneHold(holds: map<Id, LegalHold>) {
    forall h, k | h in holds && k in holds && holds[h].releasedAt == None && holds[k].releasedAt == None ::
      holds[h].session == holds[k].session ==> h == k
  }

  predicate ActiveRequest(d: DeletionRequest) {
    d.lease.status == Queued || d.lease.status == Leased || d.lease.status == Blocked
  }

  ghost predicate OneDeletion(deletions: map<Id, DeletionRequest>) {
    forall d, e | d in deletions && e in deletions && ActiveRequest(deletions[d]) && ActiveRequest(deletions[e]) ::
      deletions[d].session == deletions[e].session ==> d == e
  }

  // Releases.

  /** What a release relies on: its member stays RELEASED, reviewed, in the right project and free of deletions. */
  ghost predicate MemberIsFinal(s: Id, release: Id, sessions: map<Id, SessionRow>, assignments: map<Id, Assignment>,
                                tasks: map<Id, Id>, reviews: map<Id, Review>, deletions: map<Id, DeletionRequest>,
                                releases: map<Id, Release>)
  {
    && release in releases
    && s in sessions && sessions[s].state == SessionState.Released
    && sessions[s].assignment in assignments && assignments[sessions[s].assignment].task in tasks
    && tasks[assignments[sessions[s].assignment].task] == releases[release].project
    && Vetted(reviews, s)
    && !HasDeletion(deletions, s, ActiveDeletion)
  }

  ghost predicate MembersAreFinal(db: Db) {
    forall s | s in db.members ::
      MemberIsFinal(s, db.members[s], db.sessions, db.assignments, db.tasks, db.reviews, db.deletions, db.releases)
  }

  // Redaction against deletion.

  predicate RunningJob(j: RedactionJob) {
    j.lease.status == Queued || j.lease.status == Leased
  }

  predicate PendingRequest(d: DeletionRequest) {
    ActiveRequest(d) || d.lease.status == DeadLetter
  }

  ghost predicate RedactionExcludesDeletion(redactions: map<Id, RedactionJob>, deletions: map<Id, DeletionRequest>) {
    forall j, d | j in redactions && d in deletions && RunningJob(redactions[j]) && PendingRequest(deletions[d]) ::
      redactions[j].session != deletions[d].session
  }

  // Consent.

  predicate NeedsConsent(state: SessionState) {
    state != Created && state != Assigned && state != SessionState.Cancelled && state != Deleted
  }

  /** A consent on a session was given by its assigned contributor, and a session past ASSIGNED has one. */
  ghost predicate RowConsented(row: SessionRow, assignments: map<Id, Assignment>, acceptances: map<AcceptanceKey, Time>) {
    && row.assignment in assignments
    && (NeedsConsent(row.state) ==> row.consent.Some?)
    && (row.consent.Some? ==>
          && row.consent.value.contributor == assignments[row.assignment].contributor
          && row.consent.value in acceptances)
  }

  ghost predicate Consented(sessions: map<Id, SessionRow>, assignments: map<Id, Assignment>, acceptances: map<AcceptanceKey, Time>) {
    forall s | s in sessions :: RowConsented(sessions[s], assignments, acceptances)
  }

  // The audit log.

  function StateOf(sessions: map<Id, SessionRow>, s: Id): Option<SessionState> {
    if s in sessions then Some(sessions[s].state) else None
  }

  /** Replaying the log gives every session's state, every row of the log was legal when written, and no session is
      stored as CREATED: assignment writes it as ASSIGNED. */
  ghost predicate AuditAgrees(audit: seq<AuditEvent>, sessions: map<Id, SessionRow>) {
    && AllLegal(audit)
    && (forall s :: Replay(audit, s) == StateOf(sessions, s))
    && (forall s | s in sessions :: sessions[s].state != Created)
  }

  // Dead-lettered validation jobs.

  ghost predicate DeadLettersFail(jobs: map<Id, ValidationJob>, sessions: map<Id, SessionRow>) {
    forall j | j in jobs && jobs[j].lease.status == DeadLetter ::
      jobs[j].session in sessions && sessions[jobs[j].session].state == Failed
  }

  ghost predicate OneDeadLetter(jobs: map<Id, ValidationJob>) {
    forall j, k | j in jobs && k in jobs && jobs[j].lease.status == DeadLetter && jobs[k].lease.status == DeadLetter ::
      jobs[j].session == jobs[k].session ==> j == k
  }

  // Erasure. Every row that belongs to a session belongs to a live one; only holds that were released and
  // deletions that are over may point at a tombstone.

  function LiveSessions(sessions: map<Id, SessionRow>): set<Id> {
    set s | s in sessions && sessions[s].state != Deleted
  }

  ghost predicate ReviewsLive(reviews: map<Id, Review>, live: set<Id>) {
    forall r | r in reviews :: reviews[r].session in live
  }

  ghost predicate ResultsLive(results: map<Id, ValidationResult>, live: set<Id>) {
    forall v | v in results :: results[v].session in live
  }

  ghost predicate PlansLive(plans: map<Id, Plan>, live: set<Id>) {
    forall p | p in plans :: plans[p].session in live
  }

  ghost predicate RedactionsLive(redactions: map<Id, RedactionJob>, live: set<Id>) {
    forall j | j in redactions :: redactions[j].session in live
  }

  ghost predicate JobsLive(jobs: map<Id, ValidationJob>, live: set<Id>) {
    forall j | j in jobs :: jobs[j].session in live
  }

  ghost predicate ArtifactsLive(artifacts: map<RawKey, Artifact>, live: set<Id>) {
    forall k | k in artifacts :: k.session in live
  }

  ghost predicate HoldsLive(holds: map<Id, LegalHold>, live: set<Id>) {
    Held(holds) <= live
  }

  ghost predicate DeletionsLive(deletions: map<Id, DeletionRequest>, live: set<Id>) {
    forall d | d in deletions && ActiveRequest(deletions[d]) :: deletions[d].session in live
  }

  ghost predicate RowsLive(db: Db, live: set<Id>) {
    && db.claims.Keys <= live && ReviewsLive(db.reviews, live) && ResultsLive(db.results, live) && PlansLive(db.plans, live)
    && RedactionsLive(db.redactions, live) && JobsLive(db.jobs, live) && ArtifactsLive(db.artifacts, live)
    && HoldsLive(db.holds, live) && DeletionsLive(db.deletions, live)
  }

  /** A tombstone keeps no consent. */
  ghost predicate TombstonesBare(sessions: map<Id, SessionRow>) {
    forall s | s in sessions && sessions[s].state == Deleted :: sessions[s].consent == None
  }

  ghost predicate Inv(db: Db) {
    && DeletionsRespectHolds(db.holds, db.deletions)
    && PurgesRespectHolds(db.holds, db.purges, db.members)
    && PurgesGrounded(db.policies, db.purges, db.releases)
    && OneHold(db.holds)
    && OneDeletion(db.deletions)
    && MembersAreFinal(db)
    && RedactionExcludesDeletion(db.redactions, db.deletions)
    && Consented(db.sessions, db.assignments, db.acceptances)
    && AuditAgrees(db.audit, db.sessions)
    && DeadLettersFail(db.jobs, db.sessions)
    && OneDeadLetter(db.jobs)
    && RowsLive(db, LiveSessions(db.sessions))
    && TombstonesBare(db.sessions)
  }
}
