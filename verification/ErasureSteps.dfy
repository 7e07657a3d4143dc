/** Atomic steps of services/api/internal/database/erasure.go: legal holds and the deletion queue. */
module ErasureSteps {
  import opened Common
  import opened Sessions
  import opened Queues
  import opened Tables

  const DeletableStates: set<SessionState> :=
    {Created, Assigned, Ready, ReadyForReview, Accepted, Failed, Rejected, ReworkRequired, SessionState.Cancelled}

  predicate ValidReason(reason: string) {
    3 <= |reason| <= 2000
  }

  predicate PurgeLeasedFor(purges: map<Id, PurgeRequest>, members: map<Id, Id>, s: Id) {
    exists q | q in purges :: purges[q].lease.status == Leased && Touches(purges[q].resource, members, s)
  }

  function PlaceLegalHold(db: Db, s: Id, hold: Id, reason: string, actor: Id, now: Time): Outcome<Id> {
    if !ValidReason(reason) then Rollback(Invalid)
    else if OrganizationOf(db, s) == None then Rollback(NotFound)
    else if s !in db.sessions || db.sessions[s].state == Deleted then Rollback(DeletionNotAllowed)
    else if HasDeletion(db.deletions, s, {Leased}) then Rollback(DeletionInProgress)
    else if PurgeLeasedFor(db.purges, db.members, s) then Rollback(RetentionPurgeInProgress)
    else if s in Held(db.holds) then Rollback(LegalHoldExists)
    else if hold in db.holds then Rollback(Conflict)
    else
      Commit(Logged(db.(holds := db.holds[hold := LegalHold(s, None)]), actor, now, Noted("legal_hold.placed", hold)), hold)
  }

  /** A blocked row becomes available again at once. */
  function Unblocked(l: Lease, now: Time): Lease {
    l.(status := Queued, availableAt := now)
  }

  function UnblockDeletions(deletions: map<Id, DeletionRequest>, s: Id, now: Time): map<Id, DeletionRequest> {
    map d | d in deletions ::
      if deletions[d].lease.status == Blocked && deletions[d].session == s
      then deletions[d].(lease := Unblocked(deletions[d].lease, now)) else deletions[d]
  }

  function UnblockPurges(purges: map<Id, PurgeRequest>, members: map<Id, Id>, s: Id, now: Time): map<Id, PurgeRequest> {
    map q | q in purges ::
      if purges[q].lease.status == Blocked && Touches(purges[q].resource, members, s)
      then purges[q].(lease := Unblocked(purges[q].lease, now)) else purges[q]
  }

  function ReleaseLegalHold(db: Db, s: Id, hold: Id, actor: Id, now: Time): Outcome<Id> {
    if hold !in db.holds || db.holds[hold] != LegalHold(s, None) then Rollback(NotFound)
    else
      Commit(Logged(db.(
        holds := db.holds[hold := LegalHold(s, Some(now))],
        deletions := UnblockDeletions(db.deletions, s, now),
        purges := UnblockPurges(db.purges, db.members, s, now)),
        actor, now, Noted("legal_hold.released", hold)), hold)
  }

  function RequestSessionDeletion(db: Db, s: Id, request: Id, reason: string, actor: Id, now: Time): Outcome<Id> {
    if !ValidReason(reason) then Rollback(Invalid)
    else if OrganizationOf(db, s) == None then Rollback(NotFound)
    else if s !in db.sessions || db.sessions[s].state !in DeletableStates then Rollback(DeletionNotAllowed)
    else if s in Held(db.holds) then Rollback(LegalHoldActive)
    else if HasRedaction(db.redactions, s, RunningRedaction) then Rollback(RedactionInProgress)
    else if HasDeletion(db.deletions, s, ActiveDeletion) then Rollback(DeletionPending)
    else if request in db.deletions then Rollback(Conflict)
    else
      Commit(Logged(db.(deletions := db.deletions[request := DeletionRequest(s, Fresh(now))]),
                    actor, now, Noted("session.deletion_requested", request)), request)
  }

  /** Where a claim takes the row: dead-lettered, blocked by a hold, or leased. */
  function ClaimVerdict(row: DeletionRequest, state: SessionState, held: set<Id>, worker: Id, duration: Time, now: Time): Lease {
    if state !in DeletableStates then Parked(row.lease, DeadLetter)
    else if row.session in held then Parked(row.lease, Blocked)
    else Claimed(row.lease, worker, duration, now)
  }

  function DeletionNote(status: Status): string {
    if status == DeadLetter then "session.deletion_dead_letter"
    else if status == Blocked then "session.deletion_blocked" else "session.deletion_queued"
  }

  /** Only a claim that is turned away is audited. */
  function Announced(db: Db, status: Status, worker: Id, now: Time, action: string, request: Id): Db {
    if status == Leased then db else Logged(db, worker, now, Noted(action, request))
  }

  /** Answers with the status the row ends in. */
  function ClaimDeletionRequest(db: Db, request: Id, worker: Id, duration: Time, now: Time): Outcome<Status> {
    if request !in db.deletions || !Claimable(db.deletions[request].lease, now)
       || db.deletions[request].session !in db.sessions then Rollback(NoJob)
    else
      var row := db.deletions[request];
      var next := ClaimVerdict(row, db.sessions[row.session].state, Held(db.holds), worker, duration, now);
      Commit(Announced(db.(deletions := db.deletions[request := row.(lease := next)]), next.status, worker, now,
                       DeletionNote(next.status), request), next.status)
  }

  /** A failed attempt goes back to the queue until the attempts are used up. */
  function RequeueVerdict(l: Lease, maxAttempts: int, now: Time): Lease {
    if l.attempt >= maxAttempts then Parked(l, DeadLetter).(availableAt := now) else Requeued(l, now)
  }

  function RequeueDeletionRequest(db: Db, request: Id, worker: Id, maxAttempts: int, now: Time): Outcome<Status> {
    if request !in db.deletions then Rollback(NotFound)
    else if !OwnedBy(db.deletions[request].lease, worker) then Rollback(JobLease)
    else
      var row := db.deletions[request];
      var next := RequeueVerdict(row.lease, maxAttempts, now);
      Commit(Logged(db.(deletions := db.deletions[request := row.(lease := next)]),
                    worker, now, Noted(DeletionNote(next.status), request)), next.status)
  }

  /** Everything a session owns in the database goes; the session row itself stays, DELETED and without consent. */
  function Erase(db: Db, s: Id, now: Time): Db {
    db.(
      sessions := if s in db.sessions
                  then db.sessions[s := db.sessions[s].(state := Deleted, consent := None, updatedAt := now)] else db.sessions,
      claims := db.claims - {s},
      reviews := map r | r in db.reviews && db.reviews[r].session != s :: db.reviews[r],
      results := map v | v in db.results && db.results[v].session != s :: db.results[v],
      redactions := map j | j in db.redactions && db.redactions[j].session != s :: db.redactions[j],
      plans := map p | p in db.plans && db.plans[p].session != s :: db.plans[p],
      artifacts := map k | k in db.artifacts && k.session != s :: db.artifacts[k],
      jobs := map j | j in db.jobs && db.jobs[j].session != s :: db.jobs[j])
  }

  function CompleteDeletionRequest(db: Db, request: Id, worker: Id, now: Time): Outcome<Id> {
    if request !in db.deletions then Rollback(NotFound)
    else if !OwnedBy(db.deletions[request].lease, worker) then Rollback(JobLease)
    else
      var row := db.deletions[request];
      if row.session in Held(db.holds) then Rollback(LegalHoldActive)
      else
        var erased := Erase(db, row.session, now);
        var completed := row.(lease := Parked(row.lease, Completed));
        Commit(Logged(erased.(deletions := db.deletions[request := completed]), worker, now, SessionDeleted(row.session)),
               row.session)
  }

  function RetryDeadLetterDeletionRequest(db: Db, request: Id, actor: Id, now: Time): Outcome<Id> {
    if request !in db.deletions then Rollback(NotFound)
    else if db.deletions[request].lease.status != DeadLetter then Rollback(NotDeadLetter)
    else
      var row := db.deletions[request];
      if row.session !in db.sessions then Rollback(NotFound)
      else if db.sessions[row.session].state !in DeletableStates then Rollback(DeletionNotAllowed)
      else if row.session in Held(db.holds) then Rollback(LegalHoldActive)
      else if HasDeletion(db.deletions, row.session, ActiveDeletion) then Rollback(Conflict)
      else
        Commit(Logged(db.(deletions := db.deletions[request := row.(lease := Retried(row.lease, now))]),
                      actor, now, Noted("session.deletion_manual_retry", request)), request)
  }

  datatype ErasureAction =
    | PlaceHold(session: Id, hold: Id, reason: string)
    | ReleaseHold(session: Id, hold: Id)
    | RequestDeletion(session: Id, request: Id, reason: string)
    | ClaimDeletion(request: Id, duration: Time)
    | RequeueDeletion(request: Id, maxAttempts: int)
    | CompleteDeletion(request: Id)
    | RetryDeletion(request: Id)

  function ErasureStep(db: Db, me: Id, now: Time, action: ErasureAction): Db {
    match action
    case PlaceHold(s, hold, reason) => PlaceLegalHold(db, s, hold, reason, me, now).After(db)
    case ReleaseHold(s, hold) => ReleaseLegalHold(db, s, hold, me, now).After(db)
    case RequestDeletion(s, request, reason) => RequestSessionDeletion(db, s, request, reason, me, now).After(db)
    case ClaimDeletion(request, duration) => ClaimDeletionRequest(db, request, me, duration, now).After(db)
    case RequeueDeletion(request, maxAttempts) => RequeueDeletionRequest(db, request, me, maxAttempts, now).After(db)
    case CompleteDeletion(request) => CompleteDeletionRequest(db, request, me, now).After(db)
    case RetryDeletion(request) => RetryDeadLetterDeletionRequest(db, request, me, now).After(db)
  }
}
