/** Runs that reach the states the guarantees speak about. */
module Witnesses {
  import opened Common
  import opened Sessions
  import opened Queues
  import opened Tables
  import opened PipelineSteps
  import opened ReviewSteps
  import opened ErasureSteps
  import opened ControlPlane
  import opened QueueHistory
  import opened Runs
  import opened Guarantees

  /** One project of one organization with one template's task, one contributor and one consent text. */
  const SET_UP := Db(
    map[0 := 0], map[0 := 0], {0}, map[0 := 0],
    map[], map[], map[], map[], map[], map[], map[], map[], map[], map[], map[], map[], map[], map[], map[], map[], [])

  const START := System(SET_UP, map[])

  /** The state of session 0 after some calls that touch no hold, deletion, claim, review, plan or redaction. */
  predicate At(db: Db, state: SessionState) {
    && 0 in db.sessions && db.sessions[0].state == state && db.sessions[0].assignment == 0
    && 0 in db.assignments && db.assignments[0] == Assignment(0, 0)
    && db.tasks == SET_UP.tasks && db.projects == SET_UP.projects && db.documents == SET_UP.documents
    && db.holds == map[] && db.deletions == map[] && db.claims == map[] && db.reviews == map[]
    && db.plans == map[] && db.redactions == map[]
  }

  lemma RunErasure(calls: seq<Call>, now: Time, action: ErasureAction)
    ensures Run(START, calls + [Call(0, now, Erasure(action))]).db == ErasureStep(Run(START, calls).db, 0, now, action)
  {
    RunSnoc(START, calls, Call(0, now, Erasure(action)));
  }

  function By(action: Action): Call {
    Call(0, 1, action)
  }

  /** The calls up to an assigned session. */
  const ASSIGN: seq<Call> := [By(Pipeline(Assign(0, 0, 0, 0)))]

  lemma AssignedRun()
    ensures var db := Run(START, ASSIGN).db;
            At(db, Assigned) && db.artifacts == map[] && db.jobs == map[] && db.results == map[]
  {
    RunSnoc(START, [], By(Pipeline(Assign(0, 0, 0, 0))));
    assert [] + ASSIGN == ASSIGN;
    assert AssignTask(SET_UP, 0, 0, 0, 0, 0, 1).Commit?;
  }

  // Attempts without bound.

  /** A claim made when k leases have run out. */
  function ClaimAfter(k: nat): Call {
    Call(0, k + 2, Erasure(ClaimDeletion(0, 1)))
  }

  /** A request, then k claims of it. */
  function Claims(k: nat): seq<Call> {
    if k == 0 then ASSIGN + [By(Erasure(RequestDeletion(0, 0, "due")))]
    else Claims(k - 1) + [ClaimAfter(k - 1)]
  }

  predicate Tried(db: Db, k: nat) {
    && 0 in db.sessions && db.sessions[0].state == Assigned && db.holds == map[]
    && 0 in db.deletions && db.deletions[0].session == 0 && db.deletions[0].lease.attempt == k
    && Claimable(db.deletions[0].lease, k + 2) && (k > 0 ==> db.deletions[0].lease.status == Leased)
  }

  lemma Requested(db: Db)
    requires At(db, Assigned)
    ensures Tried(RequestSessionDeletion(db, 0, 0, "due", 0, 1).After(db), 0)
  {
    assert OrganizationOf(db, 0) == Some(0);
    assert RequestSessionDeletion(db, 0, 0, "due", 0, 1).Commit?;
  }

  lemma TriedAgain(db: Db, k: nat)
    requires Tried(db, k)
    ensures Tried(ClaimDeletionRequest(db, 0, 0, 1, k + 2).After(db), k + 1)
  {
    assert ClaimDeletionRequest(db, 0, 0, 1, k + 2).Commit?;
  }

  lemma FirstRun()
    ensures Tried(Run(START, Claims(0)).db, 0)
  {
    AssignedRun();
    RunErasure(ASSIGN, 1, RequestDeletion(0, 0, "due"));
    Requested(Run(START, ASSIGN).db);
  }

  lemma OneMoreClaim(calls: seq<Call>, k: nat)
    requires Tried(Run(START, calls).db, k)
    ensures Tried(Run(START, calls + [ClaimAfter(k)]).db, k + 1)
  {
    RunErasure(calls, k + 2, ClaimDeletion(0, 1));
    TriedAgain(Run(START, calls).db, k);
  }

  lemma NextClaims(k: nat)
    requires Tried(Run(START, Claims(k)).db, k)
    ensures Tried(Run(START, Claims(k + 1)).db, k + 1)
  {
    OneMoreClaim(Claims(k), k);
  }

  lemma {:induction false} ClaimedRun(k: nat)
    ensures Tried(Run(START, Claims(k)).db, k)
  {
    if k == 0 {
      FirstRun();
    } else {
      ClaimedRun(k - 1);
      NextClaims(k - 1);
    }
  }

  /** For every number there is a run after which a leased row has more attempts, though no call allows a requeue. */
  lemma AttemptsWithoutBound(n: nat)
    ensures Initial(START) && RowAfter(START, Claims(n + 1), DeletionQueue, 0).Some?
    ensures var l := RowAfter(START, Claims(n + 1), DeletionQueue, 0).value; l.status == Leased && n < l.attempt
  {
    ClaimedRun(n + 1);
  }

  // A stranded redaction.

  const TRAJECTORY := RawKey(0, "trajectory.json")
  const VIDEO := RawKey(0, "video/000001.mp4")
  const LOG := RawKey(0, "events/000001.jsonl")

  const UPLOADED: map<RawKey, Artifact> := map[
    TRAJECTORY := Artifact(0, 1, "application/json", None),
    VIDEO := Artifact(0, 1, "video/mp4", None),
    LOG := Artifact(0, 1, "application/x-ndjson", None)]

  /** A consented session with these uploads and no validation yet. */
  predicate Filmed(db: Db, state: SessionState, artifacts: map<RawKey, Artifact>) {
    At(db, state) && db.sessions[0].consent.Some? && db.artifacts == artifacts && db.jobs == map[] && db.results == map[]
  }

  lemma Consented(db: Db)
    requires At(db, Assigned) && db.artifacts == map[] && db.jobs == map[] && db.results == map[]
    ensures Filmed(AcceptConsent(db, 0, 0, 0, 0, 1).After(db), Assigned, map[])
  {
    assert AcceptConsent(db, 0, 0, 0, 0, 1).Commit?;
  }

  lemma Advanced(db: Db, from: SessionState, to: SessionState)
    requires Filmed(db, from, map[]) && Allowed(from, to)
    ensures Filmed(TransitionSession(db, 0, to, 0, 1).After(db), to, map[])
  {
    assert TransitionSession(db, 0, to, 0, 1).Commit?;
  }

  lemma Registered(db: Db, artifacts: map<RawKey, Artifact>, key: RawKey, mediaType: string)
    requires Filmed(db, Uploading, artifacts) && key !in artifacts && key.session == 0 && key.path != "" && mediaType != ""
    ensures Filmed(RegisterArtifact(db, key, 0, 1, mediaType, 0, 1).After(db), Uploading,
                   artifacts[key := Artifact(0, 1, mediaType, None)])
  {
    assert RegisterArtifact(db, key, 0, 1, mediaType, 0, 1).Commit?;
  }

  lemma PathsDiffer()
    ensures TRAJECTORY != VIDEO && VIDEO != LOG && TRAJECTORY != LOG
    ensures TRAJECTORY.path != "" && VIDEO.path != "" && LOG.path != ""
  {
    assert TRAJECTORY.path[0] == 't' && VIDEO.path[0] == 'v' && LOG.path[0] == 'e';
  }

  /** What submission, the lease of its job, validation and the claim of a reviewer leave. */
  predicate Sent(db: Db) {
    && At(db, Submitted) && db.sessions[0].consent.Some? && db.artifacts == UPLOADED
    && db.jobs == map[0 := ValidationJob(0, Fresh(1))] && db.results == map[]
  }

  predicate UnderValidation(db: Db) {
    && At(db, Processing) && db.sessions[0].consent.Some? && db.artifacts == UPLOADED
    && 0 in db.jobs && db.jobs[0].session == 0 && OwnedBy(db.jobs[0].lease, 0) && db.results == map[]
  }

  predicate Validated(db: Db) {
    At(db, ReadyForReview) && db.sessions[0].consent.Some? && db.artifacts == UPLOADED
  }

  predicate UnderReview(db: Db) {
    Validated(db.(claims := map[])) && db.claims == map[0 := ReviewClaim(0, 1, 1 + MINUTE)]
  }

  lemma SubmittedRow(db: Db)
    requires Filmed(db, Uploading, UPLOADED)
    ensures Sent(SubmitSession(db, 0, 0, 0, 1).After(db))
  {
    assert TRAJECTORY in db.artifacts && VIDEO in db.artifacts && LOG in db.artifacts;
    PathsDiffer();
    assert db.artifacts[VIDEO].mediaType == "video/mp4" && db.artifacts[LOG].mediaType == "application/x-ndjson";
    assert SubmissionComplete(db.artifacts, 0);
    assert SubmitSession(db, 0, 0, 0, 1).Commit?;
  }

  lemma LeasedRow(db: Db)
    requires Sent(db)
    ensures UnderValidation(ClaimValidationJob(db, 0, 0, 1, 1).After(db))
  {
    assert ClaimValidationJob(db, 0, 0, 1, 1).Commit?;
  }

  lemma ValidatedRow(db: Db)
    requires UnderValidation(db)
    ensures Validated(CompleteValidationJob(db, 0, 0, true, 0, 1).After(db))
  {
    assert CompleteValidationJob(db, 0, 0, true, 0, 1).Commit?;
  }

  lemma ClaimedReview(db: Db)
    requires Validated(db)
    ensures UnderReview(ClaimReview(db, 0, 0, MINUTE, 1).After(db))
  {
    assert ClaimReview(db, 0, 0, MINUTE, 1).Commit?;
  }

  lemma OneVideo()
    ensures Videos(UPLOADED, 0) == {VIDEO}
  {
    PathsDiffer();
    assert UPLOADED[VIDEO].mediaType[0] == 'v' && UPLOADED[LOG].mediaType[0] == 'a' && UPLOADED[TRAJECTORY].mediaType[0] == 'a';
  }

  /** A queued redaction of a session in this state. */
  predicate Waiting(db: Db, state: SessionState) {
    && 0 in db.sessions && db.sessions[0].state == state
    && 0 in db.redactions && db.redactions[0].session == 0 && db.redactions[0].lease.status == Queued
  }

  const DOCUMENT := Some(RedactionRequest(0, {VIDEO}))

  lemma AcceptedReview(db: Db)
    requires UnderReview(db)
    ensures Waiting(SubmitReview(db, 0, 0, AcceptedDecision, Passed, DOCUMENT, 0, 0, 0, 0, 0, 1).After(db), Accepted)
  {
    OneVideo();
    assert WritesRefused(db, 0, AcceptedDecision, 0, DOCUMENT, 0, 0, 0) == None;
    assert SubmitReview(db, 0, 0, AcceptedDecision, Passed, DOCUMENT, 0, 0, 0, 0, 0, 1).Commit?;
  }

  lemma ReleasedRow(db: Db)
    requires Waiting(db, Accepted)
    ensures Waiting(TransitionSession(db, 0, SessionState.Released, 0, 1).After(db), SessionState.Released)
  {
    assert TransitionSession(db, 0, SessionState.Released, 0, 1).Commit?;
  }

  lemma RunPipeline(calls: seq<Call>, action: PipelineAction)
    ensures Run(START, calls + [By(Pipeline(action))]).db == PipelineStep(Run(START, calls).db, 0, 1, action)
  {
    RunSnoc(START, calls, By(Pipeline(action)));
  }

  lemma RunValidation(calls: seq<Call>, action: ValidationAction)
    ensures Run(START, calls + [By(Validation(action))]).db == ValidationStep(Run(START, calls).db, 0, 1, action)
  {
    RunSnoc(START, calls, By(Validation(action)));
  }

  lemma RunReviewing(calls: seq<Call>, action: ReviewAction)
    ensures Run(START, calls + [By(Reviewing(action))]).db == ReviewStep(Run(START, calls).db, 0, 1, action)
  {
    RunSnoc(START, calls, By(Reviewing(action)));
  }

  lemma Advance(calls: seq<Call>, from: SessionState, to: SessionState) returns (more: seq<Call>)
    requires Filmed(Run(START, calls).db, from, map[]) && Allowed(from, to)
    ensures Filmed(Run(START, more).db, to, map[])
  {
    more := calls + [By(Pipeline(Transition(0, to)))];
    RunPipeline(calls, Transition(0, to));
    Advanced(Run(START, calls).db, from, to);
  }

  lemma Upload(calls: seq<Call>, artifacts: map<RawKey, Artifact>, key: RawKey, mediaType: string) returns (more: seq<Call>)
    requires Filmed(Run(START, calls).db, Uploading, artifacts)
    requires key !in artifacts && key.session == 0 && key.path != "" && mediaType != ""
    ensures Filmed(Run(START, more).db, Uploading, artifacts[key := Artifact(0, 1, mediaType, None)])
  {
    more := calls + [By(Pipeline(Register(key, 0, 1, mediaType)))];
    RunPipeline(calls, Register(key, 0, 1, mediaType));
    Registered(Run(START, calls).db, artifacts, key, mediaType);
  }

  lemma RecordedRun() returns (calls: seq<Call>)
    ensures Filmed(Run(START, calls).db, Uploading, map[])
  {
    AssignedRun();
    RunPipeline(ASSIGN, Consent(0, 0, 0));
    Consented(Run(START, ASSIGN).db);
    calls := Advance(ASSIGN + [By(Pipeline(Consent(0, 0, 0)))], Assigned, Ready);
    calls := Advance(calls, Ready, Recording);
    calls := Advance(calls, Recording, Finalizing);
    calls := Advance(calls, Finalizing, Uploading);
  }

  lemma UploadedRun() returns (calls: seq<Call>)
    ensures Filmed(Run(START, calls).db, Uploading, UPLOADED)
  {
    PathsDiffer();
    calls := RecordedRun();
    calls := Upload(calls, map[], TRAJECTORY, "application/json");
    calls := Upload(calls, map[TRAJECTORY := UPLOADED[TRAJECTORY]], VIDEO, "video/mp4");
    calls := Upload(calls, map[TRAJECTORY := UPLOADED[TRAJECTORY], VIDEO := UPLOADED[VIDEO]], LOG, "application/x-ndjson");
  }

  lemma SubmittedRun() returns (calls: seq<Call>)
    ensures Sent(Run(START, calls).db)
  {
    var uploaded := UploadedRun();
    RunPipeline(uploaded, Submit(0, 0));
    SubmittedRow(Run(START, uploaded).db);
    calls := uploaded + [By(Pipeline(Submit(0, 0)))];
  }

  lemma LeasedRun() returns (calls: seq<Call>)
    ensures UnderValidation(Run(START, calls).db)
  {
    var submitted := SubmittedRun();
    RunValidation(submitted, ClaimValidation(0, 1));
    LeasedRow(Run(START, submitted).db);
    calls := submitted + [By(Validation(ClaimValidation(0, 1)))];
  }

  lemma ValidatedRun() returns (calls: seq<Call>)
    ensures Validated(Run(START, calls).db)
  {
    var leased := LeasedRun();
    RunValidation(leased, CompleteValidation(0, true, 0));
    ValidatedRow(Run(START, leased).db);
    calls := leased + [By(Validation(CompleteValidation(0, true, 0)))];
  }

  lemma ReviewRun() returns (calls: seq<Call>)
    ensures UnderReview(Run(START, calls).db)
  {
    var validated := ValidatedRun();
    RunReviewing(validated, TakeReview(0, MINUTE));
    ClaimedReview(Run(START, validated).db);
    calls := validated + [By(Reviewing(TakeReview(0, MINUTE)))];
  }

  lemma ReviewedRun() returns (calls: seq<Call>)
    ensures Waiting(Run(START, calls).db, Accepted)
  {
    var claimed := ReviewRun();
    var accept := GiveReview(0, AcceptedDecision, Passed, DOCUMENT, 0, 0, 0, 0, 0);
    RunReviewing(claimed, accept);
    AcceptedReview(Run(START, claimed).db);
    calls := claimed + [By(Reviewing(accept))];
  }

  /** A session with a queued redaction can be RELEASED, and the redaction is then never leased. */
  lemma StrandedRun() returns (calls: seq<Call>)
    ensures Initial(START) && Waiting(Run(START, calls).db, SessionState.Released)
    ensures Stranded(Run(START, calls), 0)
  {
    var reviewed := ReviewedRun();
    RunPipeline(reviewed, Transition(0, SessionState.Released));
    ReleasedRow(Run(START, reviewed).db);
    calls := reviewed + [By(Pipeline(Transition(0, SessionState.Released)))];
    StrandedExactly(Run(START, calls), 0);
  }
}
