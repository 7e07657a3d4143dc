/** What one step may change of the rows that other transactions rely on: session states, reviews, assignments
    and the leases of the four queues. */
module Evolution {
  import opened Common
  import opened Sessions
  import opened Queues
  import opened Tables
  import opened PipelineSteps
  import opened ReviewSteps
  import opened ErasureSteps
  import opened RetentionSteps
  import opened ReleaseSteps

  /** The moves a stored session can make besides erasure: the transition table and the recovery out of FAILED. */
  predicate Edge(from: SessionState, to: SessionState) {
    from == to || Allowed(from, to) || (from == Failed && to == Processing)
  }

  /** The caller holds the lease of a deletion of session s, and no legal hold protects s. */
  ghost predicate Erasable(holds: map<Id, LegalHold>, deletions: map<Id, DeletionRequest>, s: Id, who: Id) {
    s !in Held(holds) && exists d | d in deletions :: deletions[d].session == s && OwnedBy(deletions[d].lease, who)
  }

  ghost predicate SessionsEvolve(before: map<Id, SessionRow>, after: map<Id, SessionRow>, holds: map<Id, LegalHold>,
                                 deletions: map<Id, DeletionRequest>, who: Id)
  {
    forall s | s in before ::
      && s in after && after[s].assignment == before[s].assignment
      && (Edge(before[s].state, after[s].state) || (after[s].state == Deleted && Erasable(holds, deletions, s, who)))
  }

  /** The reviews of session s are the same rows. */
  ghost predicate SameReviews(before: map<Id, Review>, after: map<Id, Review>, s: Id) {
    && (forall r | r in before && before[r].session == s :: r in after && after[r] == before[r])
    && (forall r | r in after && after[r].session == s :: r in before && before[r] == after[r])
  }

  /** Reviews are written only in READY_FOR_REVIEW and removed only by erasure. */
  ghost predicate ReviewsEvolve(from: map<Id, SessionRow>, to: map<Id, SessionRow>, before: map<Id, Review>, after: map<Id, Review>) {
    forall s | s in from && from[s].state != ReadyForReview && s in to && to[s].state != Deleted :: SameReviews(before, after, s)
  }

  ghost predicate AssignmentsEvolve(before: map<Id, Assignment>, after: map<Id, Assignment>) {
    forall a | a in before :: a in after && after[a] == before[a]
  }

  ghost predicate MembersEvolve(before: map<Id, Id>, after: map<Id, Id>) {
    forall s | s in before :: s in after && after[s] == before[s]
  }

  /** Every source of release r is its member. */
  ghost predicate Joined(r: Id, sources: seq<Id>, members: map<Id, Id>) {
    forall s | s in sources :: s in members && members[s] == r
  }

  /** The source lists of the releases and the membership table say the same. */
  ghost predicate TablesAgree(releases: map<Id, Release>, members: map<Id, Id>) {
    && (forall s | s in members :: members[s] in releases && s in releases[members[s]].sources)
    && (forall r | r in releases :: Joined(r, releases[r].sources, members))
  }

  ghost predicate SameSources(before: map<Id, Release>, after: map<Id, Release>) {
    after.Keys == before.Keys && forall r | r in before :: after[r].sources == before[r].sources
  }

  ghost predicate ContentsEvolve(before: Db, after: Db) {
    && MembersEvolve(before.members, after.members)
    && (TablesAgree(before.releases, before.members) ==> TablesAgree(after.releases, after.members))
  }

  ghost predicate RecordsEvolve(before: Db, after: Db, who: Id) {
    && before.tasks == after.tasks
    && ContentsEvolve(before, after)
    && AssignmentsEvolve(before.assignments, after.assignments)
    && SessionsEvolve(before.sessions, after.sessions, before.holds, before.deletions, who)
    && ReviewsEvolve(before.sessions, after.sessions, before.reviews, after.reviews)
  }

  // The queue automaton.

  /** One caller's effect on one lease: who calls, when, and with which attempt limit. */
  datatype Caller = Caller(who: Id, now: Time, maxAttempts: int)

  predicate ClaimEdge(l: Lease, m: Lease, c: Caller) {
    Claimable(l, c.now) && m.status == Leased && m.leasedBy == Some(c.who) && m.attempt == l.attempt + 1
  }

  /** A claim that finds the row blocked by a hold, outdated or beyond its session. */
  predicate TurnedAwayEdge(l: Lease, m: Lease, c: Caller) {
    Claimable(l, c.now) && m.status in {Blocked, Status.Cancelled, DeadLetter} && m.attempt == l.attempt
  }

  predicate CompleteEdge(l: Lease, m: Lease, c: Caller) {
    OwnedBy(l, c.who) && m.status == Completed && m.attempt == l.attempt
  }

  predicate RequeueEdge(l: Lease, m: Lease, c: Caller) {
    OwnedBy(l, c.who) && l.attempt < c.maxAttempts && m == Requeued(l, c.now)
  }

  predicate GiveUpEdge(l: Lease, m: Lease, c: Caller) {
    OwnedBy(l, c.who) && c.maxAttempts <= l.attempt && m.status == DeadLetter && m.attempt == l.attempt
  }

  predicate RetryEdge(l: Lease, m: Lease) {
    l.status == DeadLetter && m.status == Queued && m.attempt == 0
  }

  /** Releasing the hold that blocked the row. */
  predicate UnblockEdge(l: Lease, m: Lease) {
    l.status == Blocked && m.status == Queued && m.attempt == l.attempt
  }

  /** The validation and redaction queues. */
  predicate WorkEdge(l: Lease, m: Lease, c: Caller) {
    || m == l || ClaimEdge(l, m, c) || CompleteEdge(l, m, c) || RequeueEdge(l, m, c) || GiveUpEdge(l, m, c) || RetryEdge(l, m)
  }

  /** The deletion and purge queues, which legal holds block. */
  predicate LeaseEdge(l: Lease, m: Lease, c: Caller) {
    WorkEdge(l, m, c) || TurnedAwayEdge(l, m, c) || UnblockEdge(l, m)
  }

  /** Rows enter fresh, move along the edges, and leave only with their erased session. */
  ghost predicate JobsEvolve(before: map<Id, ValidationJob>, after: map<Id, ValidationJob>, to: map<Id, SessionRow>, c: Caller) {
    && (forall j | j in before && j in after ::
          after[j].session == before[j].session && WorkEdge(before[j].lease, after[j].lease, c))
    && (forall j | j in after && j !in before :: after[j].lease == Fresh(c.now))
    && (forall j | j in before && j !in after :: before[j].session in to ==> to[before[j].session].state == Deleted)
  }

  /** A redaction changes its lease only while its session is ACCEPTED or somebody already works on it. */
  predicate RedactionEdge(before: RedactionJob, after: RedactionJob, from: map<Id, SessionRow>, c: Caller) {
    && after.session == before.session && WorkEdge(before.lease, after.lease, c)
    && (after.lease != before.lease && after.lease.status in RunningRedaction && before.lease.status != Leased ==>
          before.session in from && from[before.session].state == Accepted)
  }

  /** A redaction is queued for an ACCEPTED session. */
  predicate NewRedaction(row: RedactionJob, to: map<Id, SessionRow>, c: Caller) {
    row.lease == Fresh(c.now) && row.session in to && to[row.session].state == Accepted
  }

  ghost predicate RedactionsEvolve(before: map<Id, RedactionJob>, after: map<Id, RedactionJob>, from: map<Id, SessionRow>,
                                   to: map<Id, SessionRow>, c: Caller)
  {
    && (forall j | j in before && j in after :: RedactionEdge(before[j], after[j], from, c))
    && (forall j | j in after && j !in before :: NewRedaction(after[j], to, c))
    && (forall j | j in before && j !in after :: before[j].session in to ==> to[before[j].session].state == Deleted)
  }

  ghost predicate DeletionsEvolve(before: map<Id, DeletionRequest>, after: map<Id, DeletionRequest>, c: Caller) {
    && (forall d | d in before :: d in after && after[d].session == before[d].session && LeaseEdge(before[d].lease, after[d].lease, c))
    && (forall d | d in after && d !in before :: after[d].lease == Fresh(c.now))
  }

  ghost predicate PurgesEvolve(before: map<Id, PurgeRequest>, after: map<Id, PurgeRequest>, c: Caller) {
    && (forall q | q in before :: q in after && after[q].resource == before[q].resource && LeaseEdge(before[q].lease, after[q].lease, c))
    && (forall q | q in after && q !in before :: after[q].lease == Fresh(c.now))
  }

  ghost predicate Evolves(before: Db, after: Db, c: Caller) {
    && RecordsEvolve(before, after, c.who)
    && JobsEvolve(before.jobs, after.jobs, after.sessions, c)
    && RedactionsEvolve(before.redactions, after.redactions, before.sessions, after.sessions, c)
    && DeletionsEvolve(before.deletions, after.deletions, c)
    && PurgesEvolve(before.purges, after.purges, c)
  }

  predicate SameRecords(before: Db, after: Db) {
    && before.tasks == after.tasks && before.assignments == after.assignments
    && before.sessions == after.sessions && before.reviews == after.reviews && before.members == after.members
    && before.releases == after.releases
  }

  /** A table that did not change has evolved. */
  lemma Framed(before: Db, after: Db, c: Caller)
    ensures SameRecords(before, after) ==> RecordsEvolve(before, after, c.who)
    ensures before.jobs == after.jobs ==> JobsEvolve(before.jobs, after.jobs, after.sessions, c)
    ensures before.redactions == after.redactions ==>
              RedactionsEvolve(before.redactions, after.redactions, before.sessions, after.sessions, c)
    ensures before.deletions == after.deletions ==> DeletionsEvolve(before.deletions, after.deletions, c)
    ensures before.purges == after.purges ==> PurgesEvolve(before.purges, after.purges, c)
  {
  }

  lemma SessionMoved(before: Db, after: Db, s: Id, row: SessionRow, who: Id)
    requires s in before.sessions && after.sessions == before.sessions[s := row]
    requires row.assignment == before.sessions[s].assignment && Edge(before.sessions[s].state, row.state)
    requires before.tasks == after.tasks && before.assignments == after.assignments && before.reviews == after.reviews
    requires before.members == after.members && before.releases == after.releases
    ensures RecordsEvolve(before, after, who)
  {
  }

  lemma SessionInserted(before: Db, after: Db, s: Id, row: SessionRow, who: Id)
    requires s !in before.sessions && after.sessions == before.sessions[s := row]
    requires before.tasks == after.tasks && AssignmentsEvolve(before.assignments, after.assignments) && before.reviews == after.reviews
    requires before.members == after.members && before.releases == after.releases
    ensures RecordsEvolve(before, after, who)
  {
  }

  lemma JobMoved(jobs: map<Id, ValidationJob>, j: Id, lease: Lease, to: map<Id, SessionRow>, c: Caller)
    requires j in jobs && WorkEdge(jobs[j].lease, lease, c)
    ensures JobsEvolve(jobs, jobs[j := jobs[j].(lease := lease)], to, c)
  {
  }

  lemma RedactionMoved(redactions: map<Id, RedactionJob>, j: Id, row: RedactionJob, from: map<Id, SessionRow>,
                       to: map<Id, SessionRow>, c: Caller)
    requires j in redactions ==> RedactionEdge(redactions[j], row, from, c)
    requires j !in redactions ==> NewRedaction(row, to, c)
    ensures RedactionsEvolve(redactions, redactions[j := row], from, to, c)
  {
  }

  lemma DeletionMoved(deletions: map<Id, DeletionRequest>, d: Id, lease: Lease, c: Caller)
    requires d in deletions && LeaseEdge(deletions[d].lease, lease, c)
    ensures DeletionsEvolve(deletions, deletions[d := deletions[d].(lease := lease)], c)
  {
  }

  lemma PurgeMoved(purges: map<Id, PurgeRequest>, q: Id, lease: Lease, c: Caller)
    requires q in purges && LeaseEdge(purges[q].lease, lease, c)
    ensures PurgesEvolve(purges, purges[q := purges[q].(lease := lease)], c)
  {
  }

  // Assignment, consent, transitions, artifacts.

  lemma AssignTaskEvolves(db: Db, c: Caller, task: Id, contributor: Id, assignment: Id, s: Id)
    ensures Evolves(db, AssignTask(db, task, contributor, assignment, s, c.who, c.now).After(db), c)
  {
    var o := AssignTask(db, task, contributor, assignment, s, c.who, c.now);
    Framed(db, o.After(db), c);
    if o.Commit? {
      SessionInserted(db, o.db, s, SessionRow(assignment, Assigned, None, None, c.now), c.who);
    }
  }

  lemma AcceptConsentEvolves(db: Db, c: Caller, s: Id, contributor: Id, document: Id)
    ensures Evolves(db, AcceptConsent(db, s, contributor, document, c.who, c.now).After(db), c)
  {
    var o := AcceptConsent(db, s, contributor, document, c.who, c.now);
    Framed(db, o.After(db), c);
    if o.Commit? {
      SessionMoved(db, o.db, s, o.db.sessions[s], c.who);
    }
  }

  lemma TransitionSessionEvolves(db: Db, c: Caller, s: Id, to: SessionState)
    ensures Evolves(db, TransitionSession(db, s, to, c.who, c.now).After(db), c)
  {
    var o := TransitionSession(db, s, to, c.who, c.now);
    Framed(db, o.After(db), c);
    if o.Commit? {
      SessionMoved(db, o.db, s, o.db.sessions[s], c.who);
    }
  }

  lemma RegisterArtifactEvolves(db: Db, c: Caller, key: RawKey, sha256: Id, size: int, mediaType: string)
    ensures Evolves(db, RegisterArtifact(db, key, sha256, size, mediaType, c.who, c.now).After(db), c)
  {
    var o := RegisterArtifact(db, key, sha256, size, mediaType, c.who, c.now);
    if o.Commit? && key !in db.artifacts {
      Framed(db, o.db, c);
    } else {
      Framed(db, db, c);
    }
  }

  lemma SubmitSessionEvolves(db: Db, c: Caller, s: Id, job: Id)
    ensures Evolves(db, SubmitSession(db, s, job, c.who, c.now).After(db), c)
  {
    var o := SubmitSession(db, s, job, c.who, c.now);
    Framed(db, o.After(db), c);
    if o.Commit? {
      SessionMoved(db, o.db, s, o.db.sessions[s], c.who);
    }
  }

  lemma PipelineEvolves(db: Db, c: Caller, action: PipelineAction)
    ensures Evolves(db, PipelineStep(db, c.who, c.now, action), c)
  {
    match action
    case Assign(task, contributor, assignment, s) => AssignTaskEvolves(db, c, task, contributor, assignment, s);
    case Consent(s, contributor, document) => AcceptConsentEvolves(db, c, s, contributor, document);
    case Transition(s, to) => TransitionSessionEvolves(db, c, s, to);
    case Register(key, sha256, size, mediaType) => RegisterArtifactEvolves(db, c, key, sha256, size, mediaType);
    case Submit(s, job) => SubmitSessionEvolves(db, c, s, job);
  }

  // The validation queue.

  lemma ClaimValidationJobEvolves(db: Db, c: Caller, job: Id, duration: Time)
    ensures Evolves(db, ClaimValidationJob(db, job, c.who, duration, c.now).After(db), c)
  {
    if ClaimValidationJob(db, job, c.who, duration, c.now).Commit? {
      if db.sessions[db.jobs[job].session].state == Submitted {
        StartedEvolves(db, c, job, duration);
      } else {
        var lease := Claimed(db.jobs[job].lease, c.who, duration, c.now);
        var leased := db.(jobs := db.jobs[job := db.jobs[job].(lease := lease)]);
        JobMoved(db.jobs, job, lease, db.sessions, c);
        Framed(db, Logged(leased, c.who, c.now, Noted("processing_job.leased", job)), c);
      }
    } else {
      Framed(db, db, c);
    }
  }

  lemma StartedEvolves(db: Db, c: Caller, job: Id, duration: Time)
    requires job in db.jobs && Claimable(db.jobs[job].lease, c.now)
    requires db.jobs[job].session in db.sessions && db.sessions[db.jobs[job].session].state == Submitted
    ensures var leased := db.(jobs := db.jobs[job := db.jobs[job].(lease := Claimed(db.jobs[job].lease, c.who, duration, c.now))]);
            Evolves(db, Logged(Moved(leased, db.jobs[job].session, Processing, c.who, c.now), c.who, c.now,
                               Noted("processing_job.leased", job)), c)
  {
    var s := db.jobs[job].session;
    var lease := Claimed(db.jobs[job].lease, c.who, duration, c.now);
    var leased := db.(jobs := db.jobs[job := db.jobs[job].(lease := lease)]);
    var after := Logged(Moved(leased, s, Processing, c.who, c.now), c.who, c.now, Noted("processing_job.leased", job));
    JobMoved(db.jobs, job, lease, after.sessions, c);
    SessionMoved(db, after, s, after.sessions[s], c.who);
    Framed(db, after, c);
  }

  lemma CompleteValidationJobEvolves(db: Db, c: Caller, job: Id, valid: bool, result: Id)
    ensures Evolves(db, CompleteValidationJob(db, job, c.who, valid, result, c.now).After(db), c)
  {
    var o := CompleteValidationJob(db, job, c.who, valid, result, c.now);
    Framed(db, o.After(db), c);
    if o.Commit? {
      JobMoved(db.jobs, job, o.db.jobs[job].lease, o.db.sessions, c);
      SessionMoved(db, o.db, db.jobs[job].session, o.db.sessions[db.jobs[job].session], c.who);
    }
  }

  lemma BuriedEvolves(db: Db, c: Caller, job: Id)
    requires job in db.jobs && OwnedBy(db.jobs[job].lease, c.who) && c.maxAttempts <= db.jobs[job].lease.attempt
    requires db.jobs[job].session in db.sessions && Allowed(db.sessions[db.jobs[job].session].state, Failed)
    ensures var row := db.jobs[job];
            var buried := db.(jobs := db.jobs[job := row.(lease := Parked(row.lease, DeadLetter))]);
            Evolves(db, Moved(Logged(buried, c.who, c.now, Noted("processing_job.dead_lettered", job)),
                              row.session, Failed, c.who, c.now), c)
  {
    var row := db.jobs[job];
    var buried := db.(jobs := db.jobs[job := row.(lease := Parked(row.lease, DeadLetter))]);
    var after := Moved(Logged(buried, c.who, c.now, Noted("processing_job.dead_lettered", job)), row.session, Failed, c.who, c.now);
    JobMoved(db.jobs, job, Parked(row.lease, DeadLetter), after.sessions, c);
    SessionMoved(db, after, row.session, after.sessions[row.session], c.who);
    Framed(db, after, c);
  }

  lemma RequeueValidationJobEvolves(db: Db, c: Caller, job: Id)
    ensures Evolves(db, RequeueValidationJob(db, job, c.who, c.maxAttempts, c.now).After(db), c)
  {
    if RequeueValidationJob(db, job, c.who, c.maxAttempts, c.now).Commit? {
      var row := db.jobs[job];
      if row.lease.attempt < c.maxAttempts {
        var requeued := Requeued(row.lease, c.now);
        JobMoved(db.jobs, job, requeued, db.sessions, c);
        Framed(db, Logged(db.(jobs := db.jobs[job := row.(lease := requeued)]), c.who, c.now, Noted("processing_job.requeued", job)), c);
      } else {
        BuriedEvolves(db, c, job);
      }
    } else {
      Framed(db, db, c);
    }
  }

  lemma RetryDeadLetterJobEvolves(db: Db, c: Caller, job: Id)
    ensures Evolves(db, RetryDeadLetterJob(db, job, c.who, c.now).After(db), c)
  {
    var o := RetryDeadLetterJob(db, job, c.who, c.now);
    Framed(db, o.After(db), c);
    if o.Commit? {
      JobMoved(db.jobs, job, o.db.jobs[job].lease, o.db.sessions, c);
      SessionMoved(db, o.db, db.jobs[job].session, o.db.sessions[db.jobs[job].session], c.who);
    }
  }

  lemma ValidationEvolves(db: Db, c: Caller, action: ValidationAction)
    requires action.RequeueValidation? ==> c.maxAttempts == action.maxAttempts
    ensures Evolves(db, ValidationStep(db, c.who, c.now, action), c)
  {
    match action
    case ClaimValidation(job, duration) => ClaimValidationJobEvolves(db, c, job, duration);
    case CompleteValidation(job, valid, result) => CompleteValidationJobEvolves(db, c, job, valid, result);
    case RequeueValidation(job, _) => RequeueValidationJobEvolves(db, c, job);
    case RetryValidation(job) => RetryDeadLetterJobEvolves(db, c, job);
  }

  // Reviews and redaction.

  lemma RedactionEvolved(db: Db, after: Db, c: Caller, j: Id, row: RedactionJob)
    requires j in db.redactions ==> RedactionEdge(db.redactions[j], row, db.sessions, c)
    requires j !in db.redactions ==> NewRedaction(row, db.sessions, c)
    requires after == db.(redactions := db.redactions[j := row], plans := after.plans, audit := after.audit)
    ensures Evolves(db, after, c)
  {
    Framed(db, after, c);
    RedactionMoved(db.redactions, j, row, db.sessions, after.sessions, c);
  }

  lemma ReviewAdded(db: Db, after: Db, s: Id, review: Id, row: Review, who: Id)
    requires s in db.sessions && db.sessions[s].state == ReadyForReview && review !in db.reviews && row.session == s
    requires after.reviews == db.reviews[review := row] && db.tasks == after.tasks && db.assignments == after.assignments
    requires db.members == after.members && db.releases == after.releases
    requires s in after.sessions && after.sessions[s].assignment == db.sessions[s].assignment
             && Edge(ReadyForReview, after.sessions[s].state)
    requires forall x | x in db.sessions && x != s :: x in after.sessions && after.sessions[x] == db.sessions[x]
    ensures RecordsEvolve(db, after, who)
  {
  }

  /** Moving a session does not change whose successor it is. */
  lemma SuccessorSame(sessions: map<Id, SessionRow>, s: Id, row: SessionRow)
    requires s in sessions && row.reworkOf == sessions[s].reworkOf
    ensures HasSuccessor(sessions[s := row], s) == HasSuccessor(sessions, s)
  {
    var moved := sessions[s := row];
    if HasSuccessor(sessions, s) {
      var x :| x in sessions && sessions[x].reworkOf == Some(s);
      assert moved[x].reworkOf == Some(s);
    }
  }

  lemma SubmitReviewEvolves(db: Db, c: Caller, s: Id, decision: Decision, pii: PIIReview, document: Option<RedactionRequest>,
                            requestId: Id, review: Id, plan: Id, job: Id, successor: Id)
    ensures Evolves(db, SubmitReview(db, s, c.who, decision, pii, document, requestId, review, plan, job, successor, c.now).After(db), c)
  {
    if SubmitReview(db, s, c.who, decision, pii, document, requestId, review, plan, job, successor, c.now).Commit? {
      ReviewedEvolves(db, c, s, decision, pii, document, requestId, review, plan, job, successor);
    } else {
      Framed(db, db, c);
    }
  }

  lemma ReviewedEvolves(db: Db, c: Caller, s: Id, decision: Decision, pii: PIIReview, document: Option<RedactionRequest>,
                        requestId: Id, review: Id, plan: Id, job: Id, successor: Id)
    requires s in db.sessions && db.sessions[s].state == ReadyForReview && review !in db.reviews
    requires document.Some? ==> job !in db.redactions && decision == AcceptedDecision
    requires decision == ReworkDecision ==> successor !in db.sessions
    ensures var writes := ReviewWrites(db, s, c.who, decision, pii, document, requestId, review, plan, job, successor, c.now);
            Evolves(db, Concluded(writes, s, review, Target(decision), c.who, c.now), c)
  {
    var writes := ReviewWrites(db, s, c.who, decision, pii, document, requestId, review, plan, job, successor, c.now);
    var after := Concluded(writes, s, review, Target(decision), c.who, c.now);
    Framed(db, after, c);
    ReviewAdded(db, after, s, review, Review(s, c.who, decision, pii, c.now), c.who);
    if document.Some? {
      RedactionMoved(db.redactions, job, RedactionJob(plan, s, None, None, Fresh(c.now)), db.sessions, after.sessions, c);
    }
  }

  lemma ReviewClaimEvolves(db: Db, c: Caller, s: Id, o: Outcome<ReviewClaim>, duration: Time)
    requires o == ClaimReview(db, s, c.who, duration, c.now)
    ensures Evolves(db, o.After(db), c)
  {
    if o.Commit? { Framed(db, o.db, c); } else { Framed(db, db, c); }
  }

  lemma ReviewDropEvolves(db: Db, c: Caller, s: Id)
    ensures Evolves(db, ReleaseReview(db, s, c.who, c.now).After(db), c)
  {
    var o := ReleaseReview(db, s, c.who, c.now);
    if o.Commit? { Framed(db, o.db, c); } else { Framed(db, db, c); }
  }

  lemma ReviewEvolves(db: Db, c: Caller, action: ReviewAction)
    ensures Evolves(db, ReviewStep(db, c.who, c.now, action), c)
  {
    match action
    case GiveReview(s, decision, pii, attached, requestId, review, plan, job, successor) =>
      SubmitReviewEvolves(db, c, s, decision, pii, attached, requestId, review, plan, job, successor);
    case TakeReview(s, duration) => ReviewClaimEvolves(db, c, s, ClaimReview(db, s, c.who, duration, c.now), duration);
    case DropReview(s) => ReviewDropEvolves(db, c, s);
  }

  lemma CreateRedactionPlanEvolves(db: Db, c: Caller, s: Id, requestId: Id, document: RedactionRequest, existing: Option<Id>,
                                   plan: Id, job: Id)
    ensures Evolves(db, CreateRedactionPlan(db, s, c.who, requestId, document, existing, plan, job, c.now).After(db), c)
  {
    var o := CreateRedactionPlan(db, s, c.who, requestId, document, existing, plan, job, c.now);
    if o.Commit? && existing == None {
      RedactionEvolved(db, o.db, c, job, RedactionJob(plan, s, None, None, Fresh(c.now)));
    } else {
      Framed(db, db, c);
    }
  }

  lemma RequeueRedactionJobEvolves(db: Db, c: Caller, job: Id)
    ensures Evolves(db, RequeueRedactionJob(db, job, c.who, c.maxAttempts, c.now).After(db), c)
  {
    if RequeueRedactionJob(db, job, c.who, c.maxAttempts, c.now).Commit? {
      var row := db.redactions[job];
      if row.lease.attempt < c.maxAttempts {
        RedactionLogged(db, c, job, row.(lease := Requeued(row.lease, c.now)), "redaction_job.requeued");
      } else {
        RedactionLogged(db, c, job, row.(finishedAt := Some(c.now), lease := Parked(row.lease, DeadLetter)), "redaction_job.dead_lettered");
      }
    } else {
      Framed(db, db, c);
    }
  }

  lemma RedactionLogged(db: Db, c: Caller, j: Id, row: RedactionJob, action: string)
    requires j in db.redactions && RedactionEdge(db.redactions[j], row, db.sessions, c)
    ensures Evolves(db, Logged(db.(redactions := db.redactions[j := row]), c.who, c.now, Noted(action, j)), c)
  {
    RedactionEvolved(db, Logged(db.(redactions := db.redactions[j := row]), c.who, c.now, Noted(action, j)), c, j, row);
  }

  lemma RedactionJobEvolves(db: Db, c: Caller, action: RedactionAction, o: Outcome<Id>)
    requires action.ClaimRedaction? || action.CompleteRedaction? || action.RetryRedaction?
    requires action.ClaimRedaction? ==> o == ClaimRedactionJob(db, action.job, c.who, action.duration, c.now)
    requires action.CompleteRedaction? ==> o == CompleteRedactionJob(db, action.job, c.who, action.manifestPlan, c.now)
    requires action.RetryRedaction? ==> o == RetryDeadLetterRedactionJob(db, action.job, c.who, c.now)
    ensures Evolves(db, o.After(db), c)
  {
    if o.Commit? {
      RedactionEvolved(db, o.db, c, action.job, o.db.redactions[action.job]);
    } else {
      Framed(db, db, c);
    }
  }

  lemma RedactionEvolves(db: Db, c: Caller, action: RedactionAction)
    requires action.RequeueRedaction? ==> c.maxAttempts == action.maxAttempts
    ensures Evolves(db, RedactionStep(db, c.who, c.now, action), c)
  {
    match action
    case CreatePlan(s, requestId, document, existing, plan, job) =>
      CreateRedactionPlanEvolves(db, c, s, requestId, document, existing, plan, job);
    case ClaimRedaction(job, duration) => RedactionJobEvolves(db, c, action, ClaimRedactionJob(db, job, c.who, duration, c.now));
    case CompleteRedaction(job, plan) => RedactionJobEvolves(db, c, action, CompleteRedactionJob(db, job, c.who, plan, c.now));
    case RequeueRedaction(job, _) => RequeueRedactionJobEvolves(db, c, job);
    case RetryRedaction(job) => RedactionJobEvolves(db, c, action, RetryDeadLetterRedactionJob(db, job, c.who, c.now));
  }

  // Legal holds and erasure.

  lemma DeletionEvolved(db: Db, after: Db, c: Caller, d: Id, lease: Lease)
    requires d in db.deletions && LeaseEdge(db.deletions[d].lease, lease, c)
    requires after == db.(deletions := db.deletions[d := db.deletions[d].(lease := lease)], audit := after.audit)
    ensures Evolves(db, after, c)
  {
    Framed(db, after, c);
    DeletionMoved(db.deletions, d, lease, c);
  }

  lemma PlaceLegalHoldEvolves(db: Db, c: Caller, s: Id, hold: Id, reason: string)
    ensures Evolves(db, PlaceLegalHold(db, s, hold, reason, c.who, c.now).After(db), c)
  {
    var o := PlaceLegalHold(db, s, hold, reason, c.who, c.now);
    if o.Commit? { Framed(db, o.db, c); } else { Framed(db, db, c); }
  }

  lemma ReleaseLegalHoldEvolves(db: Db, c: Caller, s: Id, hold: Id)
    ensures Evolves(db, ReleaseLegalHold(db, s, hold, c.who, c.now).After(db), c)
  {
    var o := ReleaseLegalHold(db, s, hold, c.who, c.now);
    if o.Commit? { Framed(db, o.db, c); } else { Framed(db, db, c); }
  }

  lemma RequestSessionDeletionEvolves(db: Db, c: Caller, s: Id, request: Id, reason: string)
    ensures Evolves(db, RequestSessionDeletion(db, s, request, reason, c.who, c.now).After(db), c)
  {
    var o := RequestSessionDeletion(db, s, request, reason, c.who, c.now);
    if o.Commit? { Framed(db, o.db, c); } else { Framed(db, db, c); }
  }

  lemma ClaimDeletionRequestEvolves(db: Db, c: Caller, request: Id, duration: Time)
    ensures Evolves(db, ClaimDeletionRequest(db, request, c.who, duration, c.now).After(db), c)
  {
    var o := ClaimDeletionRequest(db, request, c.who, duration, c.now);
    if o.Commit? {
      DeletionEvolved(db, o.db, c, request, o.db.deletions[request].lease);
    } else {
      Framed(db, db, c);
    }
  }

  lemma RequeueDeletionRequestEvolves(db: Db, c: Caller, request: Id)
    ensures Evolves(db, RequeueDeletionRequest(db, request, c.who, c.maxAttempts, c.now).After(db), c)
  {
    var o := RequeueDeletionRequest(db, request, c.who, c.maxAttempts, c.now);
    if o.Commit? {
      DeletionEvolved(db, o.db, c, request, o.db.deletions[request].lease);
    } else {
      Framed(db, db, c);
    }
  }

  lemma CompleteDeletionRequestEvolves(db: Db, c: Caller, request: Id)
    ensures Evolves(db, CompleteDeletionRequest(db, request, c.who, c.now).After(db), c)
  {
    var o := CompleteDeletionRequest(db, request, c.who, c.now);
    if o.Commit? {
      Framed(db, o.db, c);
      DeletionMoved(db.deletions, request, Parked(db.deletions[request].lease, Completed), c);
      ErasedEvolves(db, o.db, db.deletions[request].session, c);
      ErasedLeavesQueues(db, o.db, db.deletions[request].session, c);
    } else {
      Framed(db, db, c);
    }
  }

  /** Erasing session s touches the records of s alone. */
  lemma ErasedEvolves(db: Db, after: Db, s: Id, c: Caller)
    requires after == Erase(db, s, c.now).(deletions := after.deletions, audit := after.audit)
    requires Erasable(db.holds, db.deletions, s, c.who)
    ensures RecordsEvolve(db, after, c.who)
  {
  }

  lemma ErasedLeavesQueues(db: Db, after: Db, s: Id, c: Caller)
    requires after == Erase(db, s, c.now).(deletions := after.deletions, audit := after.audit)
    ensures JobsEvolve(db.jobs, after.jobs, after.sessions, c)
    ensures RedactionsEvolve(db.redactions, after.redactions, db.sessions, after.sessions, c)
  {
  }

  lemma RetryDeadLetterDeletionRequestEvolves(db: Db, c: Caller, request: Id)
    ensures Evolves(db, RetryDeadLetterDeletionRequest(db, request, c.who, c.now).After(db), c)
  {
    var o := RetryDeadLetterDeletionRequest(db, request, c.who, c.now);
    if o.Commit? {
      DeletionEvolved(db, o.db, c, request, o.db.deletions[request].lease);
    } else {
      Framed(db, db, c);
    }
  }

  lemma ErasureEvolves(db: Db, c: Caller, action: ErasureAction)
    requires action.RequeueDeletion? ==> c.maxAttempts == action.maxAttempts
    ensures Evolves(db, ErasureStep(db, c.who, c.now, action), c)
  {
    match action
    case PlaceHold(s, hold, reason) => PlaceLegalHoldEvolves(db, c, s, hold, reason);
    case ReleaseHold(s, hold) => ReleaseLegalHoldEvolves(db, c, s, hold);
    case RequestDeletion(s, request, reason) => RequestSessionDeletionEvolves(db, c, s, request, reason);
    case ClaimDeletion(request, duration) => ClaimDeletionRequestEvolves(db, c, request, duration);
    case RequeueDeletion(request, _) => RequeueDeletionRequestEvolves(db, c, request);
    case CompleteDeletion(request) => CompleteDeletionRequestEvolves(db, c, request);
    case RetryDeletion(request) => RetryDeadLetterDeletionRequestEvolves(db, c, request);
  }

  // Retention.

  lemma PurgeEvolved(db: Db, after: Db, c: Caller, q: Id, lease: Lease)
    requires q in db.purges && LeaseEdge(db.purges[q].lease, lease, c)
    requires after.purges == db.purges[q := db.purges[q].(lease := lease)]
    requires RecordsEvolve(db, after, c.who) && after.jobs == db.jobs && after.deletions == db.deletions
    requires RedactionsEvolve(db.redactions, after.redactions, db.sessions, after.sessions, c)
    ensures Evolves(db, after, c)
  {
    Framed(db, after, c);
    PurgeMoved(db.purges, q, lease, c);
  }

  lemma PurgeAnnounced(db: Db, c: Caller, q: Id, lease: Lease, action: string)
    requires q in db.purges && LeaseEdge(db.purges[q].lease, lease, c)
    ensures Evolves(db, Announced(db.(purges := db.purges[q := db.purges[q].(lease := lease)]), lease.status, c.who, c.now, action, q), c)
  {
    var written := db.(purges := db.purges[q := db.purges[q].(lease := lease)]);
    var logged := Logged(written, c.who, c.now, Noted(action, q));
    if lease.status == Leased {
      Framed(db, written, c);
      PurgeEvolved(db, written, c, q, lease);
    } else {
      Framed(db, logged, c);
      PurgeEvolved(db, logged, c, q, lease);
    }
  }

  lemma UpsertRetentionPolicyEvolves(db: Db, c: Caller, organization: Id, rawDays: int, derivedDays: int, releaseDays: int)
    ensures Evolves(db, UpsertRetentionPolicy(db, organization, rawDays, derivedDays, releaseDays, c.who, c.now).After(db), c)
  {
    var o := UpsertRetentionPolicy(db, organization, rawDays, derivedDays, releaseDays, c.who, c.now);
    if o.Commit? { Framed(db, o.db, c); } else { Framed(db, db, c); }
  }

  lemma {:induction false} QueueEachEvolves(db: Db, batch: seq<Resource>, ids: seq<Id>, c: Caller)
    requires |batch| <= |ids|
    ensures var queued := QueueEach(db, batch, ids, c.who, c.now);
            queued == db.(purges := queued.purges, audit := queued.audit) && PurgesEvolve(db.purges, queued.purges, c)
  {
    if batch != [] {
      QueueEachEvolves(db, batch[..|batch| - 1], ids, c);
    }
  }

  lemma QueueExpiredRetentionEvolves(db: Db, c: Caller, limit: nat, ids: seq<Id>)
    ensures Evolves(db, QueueExpiredRetention(db, limit, ids, c.who, c.now).After(db), c)
  {
    var o := QueueExpiredRetention(db, limit, ids, c.who, c.now);
    if o.Commit? {
      QueueEachEvolves(db, Batch(db, limit, c.now), ids, c);
      Framed(db, o.db, c);
    } else {
      Framed(db, db, c);
    }
  }

  lemma ClaimRetentionPurgeEvolves(db: Db, c: Caller, request: Id, duration: Time)
    ensures Evolves(db, ClaimRetentionPurge(db, request, c.who, duration, c.now).After(db), c)
  {
    if ClaimRetentionPurge(db, request, c.who, duration, c.now).Commit? {
      var row := db.purges[request];
      var next := PurgeVerdict(db, row, db.policies[row.organization], c.who, duration, c.now);
      PurgeAnnounced(db, c, request, next, PurgeNote(next.status));
    } else {
      Framed(db, db, c);
    }
  }

  lemma RequeueRetentionPurgeEvolves(db: Db, c: Caller, request: Id)
    ensures Evolves(db, RequeueRetentionPurge(db, request, c.who, c.maxAttempts, c.now).After(db), c)
  {
    var o := RequeueRetentionPurge(db, request, c.who, c.maxAttempts, c.now);
    if o.Commit? {
      Framed(db, o.db, c);
      PurgeEvolved(db, o.db, c, request, o.db.purges[request].lease);
    } else {
      Framed(db, db, c);
    }
  }

  /** Marking releases purged leaves what they list alone. */
  lemma SourcesAgree(before: map<Id, Release>, after: map<Id, Release>, members: map<Id, Id>)
    requires SameSources(before, after) && TablesAgree(before, members)
    ensures TablesAgree(after, members)
  {
    forall r | r in after ensures Joined(r, after[r].sources, members) {
      assert Joined(r, before[r].sources, members);
    }
  }

  lemma MarkedSources(db: Db, resource: Resource, now: Time)
    ensures SameSources(db.releases, MarkPurged(db, resource, now).releases)
  {
    var after := MarkPurged(db, resource, now);
    match resource
    case ReleaseObjects(r) =>
      if r in db.releases {
        assert after.releases == db.releases[r := db.releases[r].(purgedAt := PurgedNow(db.releases[r].purgedAt, now))];
      }
    case _ => assert after.releases == db.releases;
  }

  lemma MarkedContents(db: Db, after: Db, resource: Resource, now: Time)
    requires after.releases == MarkPurged(db, resource, now).releases && after.members == db.members
    ensures ContentsEvolve(db, after)
  {
    MarkedSources(db, resource, now);
    if TablesAgree(db.releases, db.members) {
      SourcesAgree(db.releases, after.releases, db.members);
    }
  }

  lemma MarkedTables(db: Db, resource: Resource, now: Time)
    ensures var marked := MarkPurged(db, resource, now);
            marked == db.(artifacts := marked.artifacts, results := marked.results, redactions := marked.redactions,
                          releases := marked.releases)
  {
  }

  lemma MarkedRedactions(db: Db, resource: Resource, c: Caller)
    ensures RedactionsEvolve(db.redactions, MarkPurged(db, resource, c.now).redactions, db.sessions, db.sessions, c)
  {
  }

  lemma MarkedEvolves(db: Db, after: Db, resource: Resource, c: Caller)
    requires after == MarkPurged(db, resource, c.now).(purges := after.purges, audit := after.audit)
    ensures RecordsEvolve(db, after, c.who) && after.jobs == db.jobs && after.deletions == db.deletions
    ensures RedactionsEvolve(db.redactions, after.redactions, db.sessions, after.sessions, c)
  {
    MarkedTables(db, resource, c.now);
    MarkedRedactions(db, resource, c);
    MarkedContents(db, after, resource, c.now);
  }

  lemma CompleteRetentionPurgeEvolves(db: Db, c: Caller, request: Id)
    ensures Evolves(db, CompleteRetentionPurge(db, request, c.who, c.now).After(db), c)
  {
    var o := CompleteRetentionPurge(db, request, c.who, c.now);
    if o.Commit? {
      MarkedEvolves(db, o.db, db.purges[request].resource, c);
      PurgeEvolved(db, o.db, c, request, Parked(db.purges[request].lease, Completed));
    } else {
      Framed(db, db, c);
    }
  }

  lemma RetryDeadLetterRetentionPurgeEvolves(db: Db, c: Caller, request: Id)
    ensures Evolves(db, RetryDeadLetterRetentionPurge(db, request, c.who, c.now).After(db), c)
  {
    var o := RetryDeadLetterRetentionPurge(db, request, c.who, c.now);
    if o.Commit? {
      Framed(db, o.db, c);
      PurgeEvolved(db, o.db, c, request, o.db.purges[request].lease);
    } else {
      Framed(db, db, c);
    }
  }

  lemma RetentionEvolves(db: Db, c: Caller, action: RetentionAction)
    requires action.RequeuePurge? ==> c.maxAttempts == action.maxAttempts
    ensures Evolves(db, RetentionStep(db, c.who, c.now, action), c)
  {
    match action
    case SetPolicy(o, raw, derived, release) => UpsertRetentionPolicyEvolves(db, c, o, raw, derived, release);
    case Sweep(limit, ids) => QueueExpiredRetentionEvolves(db, c, limit, ids);
    case ClaimPurge(request, duration) => ClaimRetentionPurgeEvolves(db, c, request, duration);
    case RequeuePurge(request, _) => RequeueRetentionPurgeEvolves(db, c, request);
    case CompletePurge(request) => CompleteRetentionPurgeEvolves(db, c, request);
    case RetryPurge(request) => RetryDeadLetterRetentionPurgeEvolves(db, c, request);
  }

  // Releases.

  /** What a session looks like after releasing `ids`. */
  function ReleasedRow(row: SessionRow, now: Time): SessionRow {
    row.(state := SessionState.Released, updatedAt := now)
  }

  /** Releasing distinct sessions moves exactly those, to RELEASED, and touches nothing but sessions, members and audit. */
  lemma {:induction false} ReleaseEachMoves(db: Db, release: Id, ids: seq<Id>, actor: Id, now: Time)
    requires Distinct(ids) && forall s :: s in ids ==> s in db.sessions
    ensures var after := ReleaseEach(db, release, ids, actor, now);
            && after == db.(sessions := after.sessions, members := after.members, audit := after.audit)
            && (forall s | s in db.sessions && s in ids :: after.sessions[s] == ReleasedRow(db.sessions[s], now))
            && (forall s | s in db.sessions && s !in ids :: after.sessions[s] == db.sessions[s])
  {
    if ids != [] {
      var last := |ids| - 1;
      var x := ids[last];
      ReleaseEachMoves(db, release, ids[..last], actor, now);
      assert x !in ids[..last] && forall s :: s in ids <==> s in ids[..last] || s == x;
    }
  }

  lemma {:induction false} ReleaseEachJoins(db: Db, release: Id, ids: seq<Id>, actor: Id, now: Time)
    requires forall s :: s in ids ==> s in db.sessions
    ensures var after := ReleaseEach(db, release, ids, actor, now).members;
            && (forall s :: s in after <==> s in ids || s in db.members)
            && (forall s | s in after :: after[s] == if s in ids then release else db.members[s])
  {
    if ids != [] {
      var last := |ids| - 1;
      ReleaseEachJoins(db, release, ids[..last], actor, now);
      assert forall s :: s in ids <==> s in ids[..last] || s == ids[last];
    }
  }

  lemma SessionsReleased(before: map<Id, SessionRow>, after: map<Id, SessionRow>, ids: seq<Id>, now: Time, db: Db, who: Id)
    requires before.Keys == after.Keys && forall s | s in ids :: s in before && before[s].state == Accepted
    requires forall s | s in before && s in ids :: after[s] == ReleasedRow(before[s], now)
    requires forall s | s in before && s !in ids :: after[s] == before[s]
    ensures SessionsEvolve(before, after, db.holds, db.deletions, who)
  {
  }

  /** A new release and its new members keep the two tables in agreement. */
  lemma ReleaseListed(releases: map<Id, Release>, members: map<Id, Id>, after: map<Id, Id>, r: Id, row: Release)
    requires TablesAgree(releases, members) && r !in releases && forall s | s in row.sources :: s !in members
    requires forall s :: s in after <==> s in row.sources || s in members
    requires forall s | s in after :: after[s] == if s in row.sources then r else members[s]
    ensures TablesAgree(releases[r := row], after)
  {
    var updated := releases[r := row];
    forall x | x in updated ensures Joined(x, updated[x].sources, after) {
      if x != r {
        assert Joined(x, releases[x].sources, members);
      }
    }
  }

  lemma CommitContents(db: Db, after: Db, meta: ReleaseMeta, row: Release, actor: Id, now: Time)
    requires Distinct(row.sources) && AllAccepted(db.sessions, row.sources) && !AnyMember(db.members, row.sources)
    requires meta.id !in db.releases && after.releases == db.releases[meta.id := row]
    requires after.members == ReleaseEach(db.(releases := after.releases), meta.id, LockOrder(row.sources), actor, now).members
    ensures ContentsEvolve(db, after)
  {
    ReleaseEachJoins(db.(releases := after.releases), meta.id, LockOrder(row.sources), actor, now);
    if TablesAgree(db.releases, db.members) {
      ReleaseListed(db.releases, db.members, after.members, meta.id, row);
    }
  }

  lemma CommitReleaseEvolves(db: Db, c: Caller, meta: ReleaseMeta, sources: seq<Id>, found: Option<Id>)
    ensures Evolves(db, CommitRelease(db, meta, sources, found, c.who, c.now).After(db), c)
  {
    var o := CommitRelease(db, meta, sources, found, c.who, c.now);
    if o.Commit? && found == None {
      var row := Release(meta.project, meta.name, meta.configurationHash, meta.manifestHash, sources, c.now, None);
      ReleaseEachMoves(db.(releases := db.releases[meta.id := row]), meta.id, LockOrder(sources), c.who, c.now);
      Framed(db, o.db, c);
      SessionsReleased(db.sessions, o.db.sessions, LockOrder(sources), c.now, db, c.who);
      CommitContents(db, o.db, meta, row, c.who, c.now);
    } else {
      Framed(db, db, c);
    }
  }
}
