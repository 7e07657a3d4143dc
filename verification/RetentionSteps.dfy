/** Atomic steps of services/api/internal/database/retention.go and retention_expiry.go: the policy and
    the purge queue. */
module RetentionSteps {
  import opened Common
  import opened Sessions
  import opened Queues
  import opened Tables
  import opened ErasureSteps

  function UpsertRetentionPolicy(db: Db, organization: Id, rawDays: int, derivedDays: int, releaseDays: int,
                                 actor: Id, now: Time): Outcome<Id>
  {
    if !(1 <= rawDays <= 3650) || !(1 <= derivedDays <= 3650) || !(1 <= releaseDays <= 3650) then Rollback(Invalid)
    else if exists q | q in db.purges :: db.purges[q].organization == organization && db.purges[q].lease.status == Leased then
      Rollback(RetentionPurgeInProgress)
    else
      var policy := Policy(rawDays, derivedDays, releaseDays, now);
      Commit(Logged(db.(policies := db.policies[organization := policy]), actor, now,
                    Noted("retention_policy.updated", organization)), organization)
  }

  const RawStates: set<SessionState> := {Accepted, SessionState.Released, Failed, Rejected, ReworkRequired, SessionState.Cancelled}
  const DerivedStates: set<SessionState> := {SessionState.Released, Failed, Rejected, ReworkRequired, SessionState.Cancelled}
  const ActivePurge: set<Status> := {Queued, Leased, Blocked}
  const Requested: set<Status> := {Queued, Leased, Blocked, Completed}

  predicate PurgeRequested(purges: map<Id, PurgeRequest>, resource: Resource, statuses: set<Status>) {
    exists q | q in purges :: purges[q].resource == resource && purges[q].lease.status in statuses
  }

  function PolicyOf(db: Db, organization: Option<Id>): Option<Policy> {
    if organization.Some? && organization.value in db.policies then Some(db.policies[organization.value]) else None
  }

  predicate HasRaw(db: Db, s: Id) {
    exists k | k in db.artifacts :: k.session == s && db.artifacts[k].purgedAt == None
  }

  predicate FinishedRedaction(job: RedactionJob, s: Id) {
    job.session == s && job.lease.status == Completed && job.purgedAt == None && job.finishedAt.Some?
  }

  /** Raw data of session s is past its retention period. */
  predicate RawExpired(db: Db, s: Id, policy: Policy, now: Time) {
    && s in db.sessions && db.sessions[s].state in RawStates
    && db.sessions[s].updatedAt <= now - policy.rawDays * DAY
    && HasRaw(db, s)
  }

  /** Derived data of session s is past its retention period when the sweep looks: the newest of the valid
      result, the session row and any finished redaction counts. */
  predicate DerivedExpired(db: Db, s: Id, policy: Policy, now: Time) {
    var limit := now - policy.derivedDays * DAY;
    && s in db.sessions && db.sessions[s].state in DerivedStates
    && db.sessions[s].updatedAt <= limit
    && (exists v | v in db.results :: db.results[v].session == s && db.results[v].valid
                                      && db.results[v].purgedAt == None && db.results[v].createdAt <= limit)
    && (forall j | j in db.redactions :: FinishedRedaction(db.redactions[j], s) ==> db.redactions[j].finishedAt.value <= limit)
    && (0 <= limit || exists j | j in db.redactions :: FinishedRedaction(db.redactions[j], s))
  }

  predicate ReleaseExpired(db: Db, r: Id, policy: Policy, now: Time) {
    && r in db.releases && db.releases[r].purgedAt == None
    && db.releases[r].createdAt <= now - policy.releaseDays * DAY
  }

  function OrganizationOfResource(db: Db, resource: Resource): Option<Id> {
    match resource
    case SessionRaw(s) => OrganizationOf(db, s)
    case SessionDerived(s) => OrganizationOf(db, s)
    case ReleaseObjects(r) =>
      if r in db.releases && db.releases[r].project in db.projects then Some(db.projects[db.releases[r].project]) else None
  }

  predicate Expired(db: Db, resource: Resource, now: Time) {
    var policy := PolicyOf(db, OrganizationOfResource(db, resource));
    policy.Some? &&
    match resource
    case SessionRaw(s) => RawExpired(db, s, policy.value, now)
    case SessionDerived(s) => DerivedExpired(db, s, policy.value, now)
    case ReleaseObjects(r) => ReleaseExpired(db, r, policy.value, now)
  }

  /** The sweep queues a resource that is expired, unheld and not already requested. */
  predicate Sweepable(db: Db, resource: Resource, now: Time) {
    Expired(db, resource, now) && !TouchesHeld(resource, db.members, db.holds) && !PurgeRequested(db.purges, resource, Requested)
  }

  /** The batch one sweep takes: raw data by session, then derived data by session, then releases, up to the limit. */
  function SweepOrder(db: Db, now: Time): seq<Resource> {
    var raw := Ascending(set s | s in db.sessions && Sweepable(db, SessionRaw(s), now));
    var derived := Ascending(set s | s in db.sessions && Sweepable(db, SessionDerived(s), now));
    var releases := Ascending(set r | r in db.releases && Sweepable(db, ReleaseObjects(r), now));
    seq(|raw|, i requires 0 <= i < |raw| => SessionRaw(raw[i]))
    + seq(|derived|, i requires 0 <= i < |derived| => SessionDerived(derived[i]))
    + seq(|releases|, i requires 0 <= i < |releases| => ReleaseObjects(releases[i]))
  }

  function Batch(db: Db, limit: nat, now: Time): seq<Resource> {
    var all := SweepOrder(db, now);
    if |all| <= limit then all else all[..limit]
  }

  /** One insert of the sweep, which a conflicting row makes a no-op. */
  function Inserted(db: Db, organization: Option<Id>, policy: Option<Policy>, resource: Resource, id: Id, actor: Id, now: Time): Db {
    if organization.None? || policy.None? || id in db.purges || PurgeRequested(db.purges, resource, ActivePurge)
    then db
    else
      Logged(db.(purges := db.purges[id := PurgeRequest(organization.value, resource, policy.value.updatedAt, Fresh(now))]),
             actor, now, Noted("retention.purge_queued", id))
  }

  function QueueOne(db: Db, source: Db, resource: Resource, id: Id, actor: Id, now: Time): Db {
    var organization := OrganizationOfResource(source, resource);
    Inserted(db, organization, PolicyOf(source, organization), resource, id, actor, now)
  }

  function QueueEach(db: Db, batch: seq<Resource>, ids: seq<Id>, actor: Id, now: Time): (queued: Db)
    requires |batch| <= |ids|
    ensures |db.audit| <= |queued.audit|
  {
    if batch == [] then db
    else
      var last := |batch| - 1;
      QueueOne(QueueEach(db, batch[..last], ids, actor, now), db, batch[last], ids[last], actor, now)
  }

  function QueueExpiredRetention(db: Db, limit: nat, ids: seq<Id>, actor: Id, now: Time): Outcome<nat> {
    if limit < 1 || limit > 1000 || |ids| < limit then Rollback(Invalid)
    else
      var queued := QueueEach(db, Batch(db, limit, now), ids, actor, now);
      Commit(queued, |queued.audit| - |db.audit|)
  }

  /** The claim looks again, more coarsely than the sweep: derived data is judged by the valid result alone. */
  predicate StillEligible(db: Db, request: PurgeRequest, now: Time) {
    var organization := OrganizationOfResource(db, request.resource);
    var policy := PolicyOf(db, organization);
    && organization == Some(request.organization) && policy.Some?
    && match request.resource
       case SessionRaw(s) => RawExpired(db, s, policy.value, now)
       case SessionDerived(s) =>
         && s in db.sessions && db.sessions[s].state in DerivedStates
         && (exists v | v in db.results :: db.results[v].session == s && db.results[v].valid && db.results[v].purgedAt == None
                                           && db.results[v].createdAt <= now - policy.value.derivedDays * DAY)
       case ReleaseObjects(r) => ReleaseExpired(db, r, policy.value, now)
  }

  function PurgeNote(status: Status): string {
    match status
    case Cancelled => "retention.purge_cancelled"
    case Blocked => "retention.purge_blocked"
    case DeadLetter => "retention.purge_dead_letter"
    case _ => "retention.purge_queued"
  }

  /** Where a claim takes the row: cancelled as outdated, blocked by a hold, or leased. */
  function PurgeVerdict(db: Db, row: PurgeRequest, policy: Policy, worker: Id, duration: Time, now: Time): Lease {
    if policy.updatedAt != row.policyUpdatedAt || !StillEligible(db, row, now) then Parked(row.lease, Status.Cancelled)
    else if TouchesHeld(row.resource, db.members, db.holds) then Parked(row.lease, Blocked)
    else Claimed(row.lease, worker, duration, now)
  }

  /** Answers with the status the stored row ends in. */
  function ClaimRetentionPurge(db: Db, request: Id, worker: Id, duration: Time, now: Time): Outcome<Status> {
    if request !in db.purges || !Claimable(db.purges[request].lease, now) then Rollback(NoJob)
    else
      var row := db.purges[request];
      if row.organization !in db.policies then Rollback(NotFound)
      else
        var next := PurgeVerdict(db, row, db.policies[row.organization], worker, duration, now);
        Commit(Announced(db.(purges := db.purges[request := row.(lease := next)]), next.status, worker, now,
                         PurgeNote(next.status), request), next.status)
  }

  function PurgedNow(purgedAt: Option<Time>, now: Time): Option<Time> {
    if purgedAt == None then Some(now) else purgedAt
  }

  /** Marks what the purge removed. */
  function MarkPurged(db: Db, resource: Resource, now: Time): Db {
    match resource
    case SessionRaw(s) =>
      db.(artifacts := map k | k in db.artifacts ::
            if k.session == s then db.artifacts[k].(purgedAt := PurgedNow(db.artifacts[k].purgedAt, now)) else db.artifacts[k])
    case SessionDerived(s) =>
      db.(results := map v | v in db.results ::
            if db.results[v].session == s then db.results[v].(purgedAt := PurgedNow(db.results[v].purgedAt, now)) else db.results[v],
          redactions := map j | j in db.redactions ::
            if db.redactions[j].session == s && db.redactions[j].lease.status == Completed
            then db.redactions[j].(purgedAt := PurgedNow(db.redactions[j].purgedAt, now)) else db.redactions[j])
    case ReleaseObjects(r) =>
      if r in db.releases
      then db.(releases := db.releases[r := db.releases[r].(purgedAt := PurgedNow(db.releases[r].purgedAt, now))]) else db
  }

  function CompleteRetentionPurge(db: Db, request: Id, worker: Id, now: Time): Outcome<Id> {
    if request !in db.purges then Rollback(NotFound)
    else if !OwnedBy(db.purges[request].lease, worker) then Rollback(JobLease)
    else
      var row := db.purges[request];
      if TouchesHeld(row.resource, db.members, db.holds) then Rollback(LegalHoldActive)
      else
        var marked := MarkPurged(db, row.resource, now);
        Commit(Logged(marked.(purges := db.purges[request := row.(lease := Parked(row.lease, Completed))]),
                      worker, now, Noted("retention.purge_completed", request)), request)
  }

  function RequeueRetentionPurge(db: Db, request: Id, worker: Id, maxAttempts: int, now: Time): Outcome<Status> {
    if request !in db.purges then Rollback(NotFound)
    else if !OwnedBy(db.purges[request].lease, worker) then Rollback(JobLease)
    else
      var row := db.purges[request];
      var next := RequeueVerdict(row.lease, maxAttempts, now);
      Commit(Logged(db.(purges := db.purges[request := row.(lease := next)]),
                    worker, now, Noted(PurgeNote(next.status), request)), next.status)
  }

  /** No policy, eligibility or hold check here: the next claim makes them. */
  function RetryDeadLetterRetentionPurge(db: Db, request: Id, actor: Id, now: Time): Outcome<Id> {
    if request !in db.purges then Rollback(NotFound)
    else if db.purges[request].lease.status != DeadLetter then Rollback(NotDeadLetter)
    else
      var row := db.purges[request];
      if PurgeRequested(db.purges, row.resource, ActivePurge) then Rollback(Conflict)
      else
        var lease := Retried(row.lease, now).(manualRequeues := row.lease.manualRequeues);
        Commit(Logged(db.(purges := db.purges[request := row.(lease := lease)]),
                      actor, now, Noted("retention.purge_manual_retry", request)), request)
  }

  datatype RetentionAction =
    | SetPolicy(organization: Id, rawDays: int, derivedDays: int, releaseDays: int)
    | Sweep(limit: nat, ids: seq<Id>)
    | ClaimPurge(request: Id, duration: Time)
    | RequeuePurge(request: Id, maxAttempts: int)
    | CompletePurge(request: Id)
    | RetryPurge(request: Id)

  function RetentionStep(db: Db, me: Id, now: Time, action: RetentionAction): Db {
    match action
    case SetPolicy(o, raw, derived, release) => UpsertRetentionPolicy(db, o, raw, derived, release, me, now).After(db)
    case Sweep(limit, ids) => QueueExpiredRetention(db, limit, ids, me, now).After(db)
    case ClaimPurge(request, duration) => ClaimRetentionPurge(db, request, me, duration, now).After(db)
    case RequeuePurge(request, maxAttempts) => RequeueRetentionPurge(db, request, me, maxAttempts, now).After(db)
    case CompletePurge(request) => CompleteRetentionPurge(db, request, me, now).After(db)
    case RetryPurge(request) => RetryDeadLetterRetentionPurge(db, request, me, now).After(db)
  }
}
