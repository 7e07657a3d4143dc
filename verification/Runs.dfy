/** The invariants hold after every run, for every interleaving of API callers, workers and exporters. */
module Runs {
  import opened Common
  import opened Sessions
  import opened Queues
  import opened Tables
  import opened PipelineSteps
  import opened ReviewSteps
  import opened ErasureSteps
  import opened RetentionSteps
  import opened ReleaseSteps
  import opened ControlPlane
  import opened Audit
  import opened Invariants
  import opened Safety
  import opened Preservation
  import opened Evolution

  /** What the exporter read stays true until its session is erased: the reviews it relied on were read in one
      transaction, the release commits in a later one. */
  ghost predicate StillVouched(db: Db, project: Id, s: Id) {
    && s in db.sessions
    && (db.sessions[s].state != Deleted ==>
          && (db.sessions[s].state == Accepted || db.sessions[s].state == SessionState.Released)
          && Vetted(db.reviews, s) && ProjectOf(db, s) == Some(project))
  }

  ghost predicate Vouched(db: Db, run: Export) {
    forall s :: s in run.sessions ==> StillVouched(db, run.project, s)
  }

  ghost predicate Safe(sys: System) {
    Inv(sys.db) && forall e | e in sys.exports :: Vouched(sys.db, sys.exports[e])
  }

  lemma VettedSame(before: map<Id, Review>, after: map<Id, Review>, s: Id)
    requires Vetted(before, s) && SameReviews(before, after, s)
    ensures Vetted(after, s)
  {
    var r :| r in before && LatestReview(before, s, r) && before[r].decision == AcceptedDecision && before[r].pii == Passed;
    assert LatestReview(after, s, r);
  }

  /** ACCEPTED is never re-entered once left, and reviews are written only in READY_FOR_REVIEW. */
  lemma VouchedEvolves(before: Db, after: Db, run: Export, who: Id)
    requires RecordsEvolve(before, after, who) && Vouched(before, run)
    ensures Vouched(after, run)
  {
    forall s | s in run.sessions ensures StillVouched(after, run.project, s) {
      assert StillVouched(before, run.project, s);
      if after.sessions[s].state != Deleted {
        VettedSame(before.reviews, after.reviews, s);
      }
    }
  }

  lemma ListedIsVouched(db: Db, project: Id, wanted: set<Id>, rows: seq<Candidate>)
    requires Listing(db, project, wanted, rows)
    ensures Vouched(db, Export(project, SessionsOf(rows)))
  {
    forall s | s in SessionsOf(rows) ensures StillVouched(db, project, s) {
      var i :| 0 <= i < |rows| && rows[i].session == s;
      assert IsCandidate(db, project, wanted, rows[i]);
    }
  }

  lemma SourcesReleasable(db: Db, meta: ReleaseMeta, row: Release, sources: seq<Id>)
    requires Inv(db) && Vouched(db, Export(meta.project, sources)) && row.project == meta.project
    requires meta.id !in db.releases && AllAccepted(db.sessions, sources)
    requires !AnyDeletion(db.deletions, sources) && !AnyMember(db.members, sources)
    ensures AllReleasable(db.(releases := db.releases[meta.id := row]), sources, meta.id)
    ensures forall q | q in db.purges :: db.purges[q].resource != ReleaseObjects(meta.id)
  {
    forall s | s in sources ensures Releasable(db.(releases := db.releases[meta.id := row]), s, meta.id) {
      assert StillVouched(db, meta.project, s);
    }
    forall q | q in db.purges ensures db.purges[q].resource != ReleaseObjects(meta.id) {
      assert PurgeGrounded(db.purges[q], db.policies, db.releases);
    }
  }

  lemma CommitReleaseKeeps(db: Db, meta: ReleaseMeta, sources: seq<Id>, found: Option<Id>, actor: Id, now: Time)
    requires Inv(db) && Vouched(db, Export(meta.project, sources))
    ensures Inv(CommitRelease(db, meta, sources, found, actor, now).After(db))
  {
    var o := CommitRelease(db, meta, sources, found, actor, now);
    if o.Commit? && found == None {
      var row := Release(meta.project, meta.name, meta.configurationHash, meta.manifestHash, sources, now, None);
      var listed := db.(releases := db.releases[meta.id := row]);
      ReleaseAdded(db, meta.id, row);
      SourcesReleasable(db, meta, row, LockOrder(sources));
      ReleaseEachKeeps(listed, meta.id, LockOrder(sources), actor, now);
      NotedKeeps(ReleaseEach(listed, meta.id, LockOrder(sources), actor, now), actor, now, "dataset_release.created", meta.id);
    }
  }

  // One step.

  lemma PipelineKeeps(db: Db, me: Id, now: Time, action: PipelineAction)
    requires Inv(db)
    ensures Inv(PipelineStep(db, me, now, action))
  {
    match action
    case Assign(task, contributor, assignment, s) => AssignTaskKeeps(db, task, contributor, assignment, s, me, now);
    case Consent(s, contributor, document) => AcceptConsentKeeps(db, s, contributor, document, me, now);
    case Transition(s, to) => TransitionSessionKeeps(db, s, to, me, now);
    case Register(key, sha256, size, mediaType) => RegisterArtifactKeeps(db, key, sha256, size, mediaType, me, now);
    case Submit(s, job) => SubmitSessionKeeps(db, s, job, me, now);
  }

  lemma ValidationKeeps(db: Db, me: Id, now: Time, action: ValidationAction)
    requires Inv(db)
    ensures Inv(ValidationStep(db, me, now, action))
  {
    match action
    case ClaimValidation(job, duration) => ClaimValidationJobKeeps(db, job, me, duration, now);
    case CompleteValidation(job, valid, result) => CompleteValidationJobKeeps(db, job, me, valid, result, now);
    case RequeueValidation(job, maxAttempts) => RequeueValidationJobKeeps(db, job, me, maxAttempts, now);
    case RetryValidation(job) => RetryDeadLetterJobKeeps(db, job, me, now);
  }

  lemma ReviewingKeeps(db: Db, me: Id, now: Time, action: ReviewAction)
    requires Inv(db)
    ensures Inv(ReviewStep(db, me, now, action))
  {
    match action
    case TakeReview(s, duration) => ClaimReviewKeeps(db, s, me, duration, now);
    case DropReview(s) => ReleaseReviewKeeps(db, s, me, now);
    case GiveReview(s, decision, pii, attached, requestId, review, plan, job, successor) =>
      SubmitReviewKeeps(db, s, me, decision, pii, attached, requestId, review, plan, job, successor, now);
  }

  lemma RedactionKeeps(db: Db, me: Id, now: Time, action: RedactionAction)
    requires Inv(db)
    ensures Inv(RedactionStep(db, me, now, action))
  {
    match action
    case CreatePlan(s, requestId, document, existing, plan, job) =>
      CreateRedactionPlanKeeps(db, s, me, requestId, document, existing, plan, job, now);
    case ClaimRedaction(job, duration) => ClaimRedactionJobKeeps(db, job, me, duration, now);
    case CompleteRedaction(job, plan) => CompleteRedactionJobKeeps(db, job, me, plan, now);
    case RequeueRedaction(job, maxAttempts) => RequeueRedactionJobKeeps(db, job, me, maxAttempts, now);
    case RetryRedaction(job) => RetryDeadLetterRedactionJobKeeps(db, job, me, now);
  }

  lemma ErasureKeeps(db: Db, me: Id, now: Time, action: ErasureAction)
    requires Inv(db)
    ensures Inv(ErasureStep(db, me, now, action))
  {
    match action
    case PlaceHold(s, hold, reason) => PlaceLegalHoldKeeps(db, s, hold, reason, me, now);
    case ReleaseHold(s, hold) => ReleaseLegalHoldKeeps(db, s, hold, me, now);
    case RequestDeletion(s, request, reason) => RequestSessionDeletionKeeps(db, s, request, reason, me, now);
    case ClaimDeletion(request, duration) => ClaimDeletionRequestKeeps(db, request, me, duration, now);
    case RequeueDeletion(request, maxAttempts) => RequeueDeletionRequestKeeps(db, request, me, maxAttempts, now);
    case CompleteDeletion(request) => CompleteDeletionRequestKeeps(db, request, me, now);
    case RetryDeletion(request) => RetryDeadLetterDeletionRequestKeeps(db, request, me, now);
  }

  lemma RetentionKeeps(db: Db, me: Id, now: Time, action: RetentionAction)
    requires Inv(db)
    ensures Inv(RetentionStep(db, me, now, action))
  {
    match action
    case SetPolicy(o, raw, derived, release) => UpsertRetentionPolicyKeeps(db, o, raw, derived, release, me, now);
    case Sweep(limit, ids) => QueueExpiredRetentionKeeps(db, limit, ids, me, now);
    case ClaimPurge(request, duration) => ClaimRetentionPurgeKeeps(db, request, me, duration, now);
    case RequeuePurge(request, maxAttempts) => RequeueRetentionPurgeKeeps(db, request, me, maxAttempts, now);
    case CompletePurge(request) => CompleteRetentionPurgeKeeps(db, request, me, now);
    case RetryPurge(request) => RetryDeadLetterRetentionPurgeKeeps(db, request, me, now);
  }

  lemma FinishedKeeps(sys: System, e: Id, meta: ReleaseMeta, found: Option<Id>, me: Id, now: Time)
    requires Safe(sys)
    ensures Inv(Finished(sys, e, meta, found, me, now))
  {
    if e in sys.exports && meta.project == sys.exports[e].project {
      assert Vouched(sys.db, sys.exports[e]);
      assert sys.exports[e] == Export(meta.project, sys.exports[e].sessions);
      CommitReleaseKeeps(sys.db, meta, sys.exports[e].sessions, found, me, now);
    }
  }

  lemma ExportKeeps(sys: System, call: Call)
    requires Safe(sys) && (call.action.BeginExport? || call.action.FinishExport?)
    ensures Inv(Step(sys, call).db)
  {
    match call.action
    case BeginExport(_, _, _, _) => assert Step(sys, call).db == sys.db;
    case FinishExport(e, meta, found) =>
      FinishedKeeps(sys, e, meta, found, call.actor, call.now);
      assert Step(sys, call).db == Finished(sys, e, meta, found, call.actor, call.now);
  }

  lemma GuardKeeps(sys: System, call: Call)
    requires Safe(sys) && (call.action.Erasure? || call.action.Retention?)
    ensures Inv(Step(sys, call).db)
  {
    match call.action
    case Erasure(a) => ErasureKeeps(sys.db, call.actor, call.now, a);
    case Retention(a) => RetentionKeeps(sys.db, call.actor, call.now, a);
  }

  lemma StepKeepsInv(sys: System, call: Call)
    requires Safe(sys)
    ensures Inv(Step(sys, call).db)
  {
    var (db, me, now) := (sys.db, call.actor, call.now);
    match call.action
    case Pipeline(a) => PipelineKeeps(db, me, now, a);
    case Validation(a) => ValidationKeeps(db, me, now, a);
    case Reviewing(a) => ReviewingKeeps(db, me, now, a);
    case Redaction(a) => RedactionKeeps(db, me, now, a);
    case BeginExport(_, _, _, _) => ExportKeeps(sys, call);
    case FinishExport(_, _, _) => ExportKeeps(sys, call);
    case _ => GuardKeeps(sys, call);
  }

  function MaxAttempts(action: Action): int {
    match action
    case Validation(RequeueValidation(_, n)) => n
    case Redaction(RequeueRedaction(_, n)) => n
    case Erasure(RequeueDeletion(_, n)) => n
    case Retention(RequeuePurge(_, n)) => n
    case _ => 0
  }

  function CallerOf(call: Call): Caller {
    Caller(call.actor, call.now, MaxAttempts(call.action))
  }

  lemma StepEvolves(sys: System, call: Call)
    ensures Evolves(sys.db, Step(sys, call).db, CallerOf(call))
  {
    var (db, c) := (sys.db, CallerOf(call));
    match call.action
    case Pipeline(a) => PipelineEvolves(db, c, a);
    case Validation(a) => ValidationEvolves(db, c, a);
    case Reviewing(a) => ReviewEvolves(db, c, a);
    case Redaction(a) => RedactionEvolves(db, c, a);
    case Erasure(a) => ErasureEvolves(db, c, a);
    case Retention(a) => RetentionEvolves(db, c, a);
    case BeginExport(_, _, _, _) => Framed(db, db, c);
    case FinishExport(e, meta, found) =>
      if e in sys.exports && meta.project == sys.exports[e].project {
        CommitReleaseEvolves(db, c, meta, sys.exports[e].sessions, found);
      } else {
        Framed(db, db, c);
      }
  }

  lemma StepKeeps(sys: System, call: Call)
    requires Safe(sys)
    ensures Safe(Step(sys, call))
  {
    var after := Step(sys, call);
    StepKeepsInv(sys, call);
    StepEvolves(sys, call);
    forall e | e in after.exports ensures Vouched(after.db, after.exports[e]) {
      if e in sys.exports {
        VouchedEvolves(sys.db, after.db, sys.exports[e], call.actor);
      } else {
        ListedIsVouched(sys.db, call.action.project, call.action.wanted, call.action.rows);
      }
    }
  }

  // Every run.

  lemma InitialSafe(sys: System)
    requires Initial(sys)
    ensures Safe(sys)
  {
  }

  lemma {:induction false} RunSafe(start: System, calls: seq<Call>)
    requires Safe(start)
    ensures Safe(Run(start, calls))
  {
    if calls != [] {
      RunSafe(start, calls[..|calls| - 1]);
      StepKeeps(Run(start, calls[..|calls| - 1]), calls[|calls| - 1]);
    }
  }

  /** States reachable from a database with set-up rows only. */
  ghost predicate Reachable(sys: System) {
    exists start, calls :: Initial(start) && sys == Run(start, calls)
  }

  lemma ReachableSafe(sys: System)
    requires Reachable(sys)
    ensures Safe(sys)
  {
    var start, calls :| Initial(start) && sys == Run(start, calls);
    InitialSafe(start);
    RunSafe(start, calls);
  }
}
