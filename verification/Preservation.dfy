/** Every step of the control plane keeps the invariants. */
module Preservation {
  import opened Common
  import opened Sessions
  import opened Queues
  import opened Tables
  import opened PipelineSteps
  import opened ReviewSteps
  import opened ErasureSteps
  import opened RetentionSteps
  import opened ReleaseSteps
  import opened Audit
  import opened Invariants
  import opened Safety

  // Assignment, consent, transitions, artifacts.

  lemma AssignTaskKeeps(db: Db, task: Id, contributor: Id, assignment: Id, s: Id, actor: Id, now: Time)
    requires Inv(db)
    ensures Inv(AssignTask(db, task, contributor, assignment, s, actor, now).After(db))
  {
    var o := AssignTask(db, task, contributor, assignment, s, actor, now);
    if o.Commit? {
      AssignmentAdded(db, assignment, Assignment(task, contributor));
      var joined := db.(assignments := db.assignments[assignment := Assignment(task, contributor)]);
      NotedKeeps(joined, actor, now, "task.assigned", assignment);
      var noted := Logged(joined, actor, now, Noted("task.assigned", assignment));
      SessionAdded(noted, s, o.db.sessions[s], AuditEvent(actor, now, Transitioned(s, Created, Assigned)));
    }
  }

  lemma AcceptConsentKeeps(db: Db, s: Id, contributor: Id, document: Id, actor: Id, now: Time)
    requires Inv(db)
    ensures Inv(AcceptConsent(db, s, contributor, document, actor, now).After(db))
  {
    var o := AcceptConsent(db, s, contributor, document, actor, now);
    if o.Commit? {
      ConsentWritten(db, s, AcceptanceKey(contributor, document), o.db.acceptances, now);
      NotedKeeps(db.(acceptances := o.db.acceptances, sessions := o.db.sessions), actor, now, "consent.accepted", s);
    }
  }

  lemma TransitionSessionKeeps(db: Db, s: Id, to: SessionState, actor: Id, now: Time)
    requires Inv(db)
    ensures Inv(TransitionSession(db, s, to, actor, now).After(db))
  {
    if TransitionSession(db, s, to, actor, now).Commit? {
      MovedKeeps(db, s, to, actor, now);
    }
  }

  lemma RegisterArtifactKeeps(db: Db, key: RawKey, sha256: Id, size: int, mediaType: string, actor: Id, now: Time)
    requires Inv(db)
    ensures Inv(RegisterArtifact(db, key, sha256, size, mediaType, actor, now).After(db))
  {
    var o := RegisterArtifact(db, key, sha256, size, mediaType, actor, now);
    if o.Commit? && key !in db.artifacts {
      ArtifactWritten(db, key, o.db.artifacts[key]);
      NotedKeeps(db.(artifacts := o.db.artifacts), actor, now, "artifact.registered", key.session);
    }
  }

  // The validation queue.

  lemma SubmitSessionKeeps(db: Db, s: Id, job: Id, actor: Id, now: Time)
    requires Inv(db)
    ensures Inv(SubmitSession(db, s, job, actor, now).After(db))
  {
    if SubmitSession(db, s, job, actor, now).Commit? {
      var queued := db.(jobs := db.jobs[job := ValidationJob(s, Fresh(now))]);
      JobWritten(db, job, ValidationJob(s, Fresh(now)));
      MovedKeeps(queued, s, Submitted, actor, now);
      NotedKeeps(Moved(queued, s, Submitted, actor, now), actor, now, "processing_job.queued", job);
    }
  }

  lemma ClaimValidationJobKeeps(db: Db, job: Id, worker: Id, duration: Time, now: Time)
    requires Inv(db)
    ensures Inv(ClaimValidationJob(db, job, worker, duration, now).After(db))
  {
    if ClaimValidationJob(db, job, worker, duration, now).Commit? {
      var s := db.jobs[job].session;
      var row := db.jobs[job].(lease := Claimed(db.jobs[job].lease, worker, duration, now));
      var leased := db.(jobs := db.jobs[job := row]);
      JobWritten(db, job, row);
      if db.sessions[s].state == Submitted {
        MovedKeeps(leased, s, Processing, worker, now);
        NotedKeeps(Moved(leased, s, Processing, worker, now), worker, now, "processing_job.leased", job);
      } else {
        NotedKeeps(leased, worker, now, "processing_job.leased", job);
      }
    }
  }

  lemma CompleteValidationJobKeeps(db: Db, job: Id, worker: Id, valid: bool, result: Id, now: Time)
    requires Inv(db)
    ensures Inv(CompleteValidationJob(db, job, worker, valid, result, now).After(db))
  {
    if CompleteValidationJob(db, job, worker, valid, result, now).Commit? {
      var s := db.jobs[job].session;
      var row := db.jobs[job].(lease := db.jobs[job].lease.(status := Completed, expiresAt := None));
      var verdict := ValidationResult(job, s, valid, now, None);
      JobWritten(db, job, row);
      var finished := db.(jobs := db.jobs[job := row]);
      ResultWritten(finished, result, verdict);
      var written := finished.(results := finished.results[result := verdict]);
      NotedKeeps(written, worker, now, "validation.completed", s);
      MovedKeeps(Logged(written, worker, now, Noted("validation.completed", s)), s, Verdict(valid), worker, now);
    }
  }

  lemma RequeueValidationJobKeeps(db: Db, job: Id, worker: Id, maxAttempts: int, now: Time)
    requires Inv(db)
    ensures Inv(RequeueValidationJob(db, job, worker, maxAttempts, now).After(db))
  {
    var o := RequeueValidationJob(db, job, worker, maxAttempts, now);
    if o.Commit? {
      var row := db.jobs[job];
      if row.lease.attempt < maxAttempts {
        var requeued := row.(lease := Requeued(row.lease, now));
        JobWritten(db, job, requeued);
        NotedKeeps(db.(jobs := db.jobs[job := requeued]), worker, now, "processing_job.requeued", job);
      } else {
        AllowedLeaves(db.sessions[row.session].state, Failed);
        var buried := row.(lease := Parked(row.lease, DeadLetter));
        NotedKeeps(db, worker, now, "processing_job.dead_lettered", job);
        var noted := Logged(db, worker, now, Noted("processing_job.dead_lettered", job));
        MovedKeeps(noted, row.session, Failed, worker, now);
        JobBuried(Moved(noted, row.session, Failed, worker, now), job, buried);
      }
    }
  }

  lemma RetryDeadLetterJobKeeps(db: Db, job: Id, actor: Id, now: Time)
    requires Inv(db)
    ensures Inv(RetryDeadLetterJob(db, job, actor, now).After(db))
  {
    if RetryDeadLetterJob(db, job, actor, now).Commit? {
      var row := db.jobs[job].(lease := Retried(db.jobs[job].lease, now));
      NotedKeeps(db, actor, now, "processing_job.manual_retry", job);
      JobRecovered(Logged(db, actor, now, Noted("processing_job.manual_retry", job)), job, row, actor, now);
    }
  }

  // Reviews.

  lemma ClaimReviewKeeps(db: Db, s: Id, reviewer: Id, duration: Time, now: Time)
    requires Inv(db)
    ensures Inv(ClaimReview(db, s, reviewer, duration, now).After(db))
  {
    var o := ClaimReview(db, s, reviewer, duration, now);
    if o.Commit? {
      ClaimsWritten(db, o.db.claims);
      NotedKeeps(db.(claims := o.db.claims), reviewer, now, "review.claimed", s);
    }
  }

  lemma ReleaseReviewKeeps(db: Db, s: Id, reviewer: Id, now: Time)
    requires Inv(db)
    ensures Inv(ReleaseReview(db, s, reviewer, now).After(db))
  {
    var o := ReleaseReview(db, s, reviewer, now);
    if o.Commit? {
      ClaimsWritten(db, o.db.claims);
      NotedKeeps(db.(claims := o.db.claims), reviewer, now, "review.released", s);
    }
  }

  lemma PlannedKeeps(db: Db, s: Id, reviewer: Id, requestId: Id, hash: Id, plan: Id, job: Id, now: Time)
    requires Inv(db) && s in LiveSessions(db.sessions) && !HasDeletion(db.deletions, s, PendingDeletion)
    ensures Inv(Planned(db, s, reviewer, requestId, hash, plan, job, now))
  {
    var row := Plan(s, reviewer, requestId, hash, now);
    PlanWritten(db, plan, row);
    var planned := db.(plans := db.plans[plan := row]);
    var queued := RedactionJob(plan, s, None, None, Fresh(now));
    RedactionWritten(planned, job, queued);
    var written := planned.(redactions := planned.redactions[job := queued]);
    NotedKeeps(written, reviewer, now, "redaction_plan.approved", plan);
    NotedKeeps(Logged(written, reviewer, now, Noted("redaction_plan.approved", plan)), reviewer, now, "redaction_job.queued", job);
  }

  lemma ReviewKeeps(db: Db, s: Id, review: Id, row: Review)
    requires Inv(db) && s in db.sessions && db.sessions[s].state == ReadyForReview && review !in db.reviews && row.session == s
    ensures Inv(db.(reviews := db.reviews[review := row]))
  {
    if s in db.members {
      MemberReleased(db, s);
    }
    ReviewWritten(db, review, row);
  }

  lemma MemberReleased(db: Db, s: Id)
    requires MembersAreFinal(db) && s in db.members
    ensures s in db.sessions && db.sessions[s].state == SessionState.Released
    ensures MemberIsFinal(s, db.members[s], db.sessions, db.assignments, db.tasks, db.reviews, db.deletions, db.releases)
  {
  }

  lemma ConcludedKeeps(db: Db, s: Id, review: Id, to: SessionState, reviewer: Id, now: Time)
    requires Inv(db) && s in db.sessions && Allowed(db.sessions[s].state, to) && to != Ready
    ensures Inv(Concluded(db, s, review, to, reviewer, now))
  {
    var unclaimed := db.(claims := db.claims - {s});
    ClaimsWritten(db, db.claims - {s});
    NotedKeeps(unclaimed, reviewer, now, "review.submitted", review);
    MovedKeeps(Logged(unclaimed, reviewer, now, Noted("review.submitted", review)), s, to, reviewer, now);
  }

  /** A rework successor enters with its audit row, before the reviewed session moves. */
  lemma SuccessorKeeps(db: Db, s: Id, successor: Id, row: SessionRow, event: AuditEvent)
    requires Inv(db) && s in db.sessions && successor !in db.sessions
    requires row.state == Assigned && row.consent == None && row.assignment == db.sessions[s].assignment
    requires event.entry == ReworkAssigned(successor, s)
    ensures Inv(db.(sessions := db.sessions[successor := row], audit := db.audit + [event]))
  {
    assert RowConsented(db.sessions[s], db.assignments, db.acceptances);
    SessionAdded(db, successor, row, event);
  }

  lemma ReviewWritesKeep(db: Db, s: Id, reviewer: Id, decision: Decision, pii: PIIReview, document: Option<RedactionRequest>,
                         requestId: Id, review: Id, plan: Id, job: Id, successor: Id, now: Time)
    requires Inv(db) && s in db.sessions && db.sessions[s].state == ReadyForReview && review !in db.reviews
    requires document.Some? ==> !HasDeletion(db.deletions, s, PendingDeletion)
    requires decision == ReworkDecision ==> successor !in db.sessions
    ensures Inv(ReviewWrites(db, s, reviewer, decision, pii, document, requestId, review, plan, job, successor, now))
  {
    var row := Review(s, reviewer, decision, pii, now);
    var reviewed := db.(reviews := db.reviews[review := row]);
    ReviewKeeps(db, s, review, row);
    if document.Some? {
      PlannedKeeps(reviewed, s, reviewer, requestId, document.value.documentHash, plan, job, now);
    } else if decision == ReworkDecision {
      SuccessorKeeps(reviewed, s, successor, SessionRow(db.sessions[s].assignment, Assigned, None, Some(s), now),
                     AuditEvent(reviewer, now, ReworkAssigned(successor, s)));
    }
  }

  lemma SubmitReviewKeeps(db: Db, s: Id, reviewer: Id, decision: Decision, pii: PIIReview, document: Option<RedactionRequest>,
                          requestId: Id, review: Id, plan: Id, job: Id, successor: Id, now: Time)
    requires Inv(db)
    ensures Inv(SubmitReview(db, s, reviewer, decision, pii, document, requestId, review, plan, job, successor, now).After(db))
  {
    if SubmitReview(db, s, reviewer, decision, pii, document, requestId, review, plan, job, successor, now).Commit? {
      ReviewWritesKeep(db, s, reviewer, decision, pii, document, requestId, review, plan, job, successor, now);
      ConcludedKeeps(ReviewWrites(db, s, reviewer, decision, pii, document, requestId, review, plan, job, successor, now),
                     s, review, Target(decision), reviewer, now);
    }
  }

  // Redaction.

  lemma CreateRedactionPlanKeeps(db: Db, s: Id, reviewer: Id, requestId: Id, document: RedactionRequest, existing: Option<Id>,
                                 plan: Id, job: Id, now: Time)
    requires Inv(db)
    ensures Inv(CreateRedactionPlan(db, s, reviewer, requestId, document, existing, plan, job, now).After(db))
  {
    if CreateRedactionPlan(db, s, reviewer, requestId, document, existing, plan, job, now).Commit? && existing == None {
      PlannedKeeps(db, s, reviewer, requestId, document.documentHash, plan, job, now);
    }
  }

  /** A redaction row keeps its session; becoming or staying running needs no pending deletion. */
  lemma RedactionMoved(db: Db, job: Id, row: RedactionJob, actor: Id, now: Time, action: string)
    requires Inv(db) && job in db.redactions && row.session == db.redactions[job].session
    requires RunningJob(row) ==> RunningJob(db.redactions[job]) || !HasDeletion(db.deletions, row.session, PendingDeletion)
    ensures Inv(Logged(db.(redactions := db.redactions[job := row]), actor, now, Noted(action, job)))
  {
    assert forall d | d in db.deletions :: db.deletions[d].lease.status in PendingDeletion ==> PendingRequest(db.deletions[d]);
    RedactionWritten(db, job, row);
    NotedKeeps(db.(redactions := db.redactions[job := row]), actor, now, action, job);
  }

  lemma ClaimRedactionJobKeeps(db: Db, job: Id, worker: Id, duration: Time, now: Time)
    requires Inv(db)
    ensures Inv(ClaimRedactionJob(db, job, worker, duration, now).After(db))
  {
    var o := ClaimRedactionJob(db, job, worker, duration, now);
    if o.Commit? {
      RedactionMoved(db, job, o.db.redactions[job], worker, now, "redaction_job.leased");
    }
  }

  lemma CompleteRedactionJobKeeps(db: Db, job: Id, worker: Id, manifestPlan: Id, now: Time)
    requires Inv(db)
    ensures Inv(CompleteRedactionJob(db, job, worker, manifestPlan, now).After(db))
  {
    var o := CompleteRedactionJob(db, job, worker, manifestPlan, now);
    if o.Commit? {
      RedactionMoved(db, job, o.db.redactions[job], worker, now, "redaction_job.completed");
    }
  }

  lemma RequeueRedactionJobKeeps(db: Db, job: Id, worker: Id, maxAttempts: int, now: Time)
    requires Inv(db)
    ensures Inv(RequeueRedactionJob(db, job, worker, maxAttempts, now).After(db))
  {
    if RequeueRedactionJob(db, job, worker, maxAttempts, now).Commit? {
      var row := db.redactions[job];
      if row.lease.attempt < maxAttempts {
        RedactionMoved(db, job, row.(lease := Requeued(row.lease, now)), worker, now, "redaction_job.requeued");
      } else {
        RedactionMoved(db, job, row.(finishedAt := Some(now), lease := Parked(row.lease, DeadLetter)),
                       worker, now, "redaction_job.dead_lettered");
      }
    }
  }

  lemma RetryDeadLetterRedactionJobKeeps(db: Db, job: Id, actor: Id, now: Time)
    requires Inv(db)
    ensures Inv(RetryDeadLetterRedactionJob(db, job, actor, now).After(db))
  {
    var o := RetryDeadLetterRedactionJob(db, job, actor, now);
    if o.Commit? {
      RedactionMoved(db, job, o.db.redactions[job], actor, now, "redaction_job.manual_retry");
    }
  }

  // Legal holds and erasure.

  lemma PlaceLegalHoldKeeps(db: Db, s: Id, hold: Id, reason: string, actor: Id, now: Time)
    requires Inv(db)
    ensures Inv(PlaceLegalHold(db, s, hold, reason, actor, now).After(db))
  {
    if PlaceLegalHold(db, s, hold, reason, actor, now).Commit? {
      HoldPlaced(db, hold, s);
      NotedKeeps(db.(holds := db.holds[hold := LegalHold(s, None)]), actor, now, "legal_hold.placed", hold);
    }
  }

  lemma ReleaseLegalHoldKeeps(db: Db, s: Id, hold: Id, actor: Id, now: Time)
    requires Inv(db)
    ensures Inv(ReleaseLegalHold(db, s, hold, actor, now).After(db))
  {
    if ReleaseLegalHold(db, s, hold, actor, now).Commit? {
      HoldReleased(db, hold, s, now);
      NotedKeeps(db.(holds := db.holds[hold := LegalHold(s, Some(now))],
                     deletions := UnblockDeletions(db.deletions, s, now),
                     purges := UnblockPurges(db.purges, db.members, s, now)),
                 actor, now, "legal_hold.released", hold);
    }
  }

  lemma RequestSessionDeletionKeeps(db: Db, s: Id, request: Id, reason: string, actor: Id, now: Time)
    requires Inv(db)
    ensures Inv(RequestSessionDeletion(db, s, request, reason, actor, now).After(db))
  {
    if RequestSessionDeletion(db, s, request, reason, actor, now).Commit? {
      if s in db.members {
        MemberReleased(db, s);
      }
      DeletionWritten(db, request, DeletionRequest(s, Fresh(now)));
      NotedKeeps(db.(deletions := db.deletions[request := DeletionRequest(s, Fresh(now))]),
                 actor, now, "session.deletion_requested", request);
    }
  }

  /** A request that moves within the active ones, or leaves them, keeps its place. */
  lemma DeletionMoved(db: Db, d: Id, row: DeletionRequest)
    requires Inv(db) && d in db.deletions && row.session == db.deletions[d].session
    requires RespectsHold(row, db.holds)
    requires ActiveRequest(row) ==> ActiveRequest(db.deletions[d])
    requires PendingRequest(row) ==> PendingRequest(db.deletions[d])
    ensures Inv(db.(deletions := db.deletions[d := row]))
  {
    if row.session in db.members {
      MemberReleased(db, row.session);
    }
    DeletionWritten(db, d, row);
  }

  lemma DeletionNoted(db: Db, d: Id, row: DeletionRequest, actor: Id, now: Time, action: string)
    requires Inv(db) && d in db.deletions && row.session == db.deletions[d].session
    requires RespectsHold(row, db.holds)
    requires ActiveRequest(row) ==> ActiveRequest(db.deletions[d])
    requires PendingRequest(row) ==> PendingRequest(db.deletions[d])
    ensures Inv(Logged(db.(deletions := db.deletions[d := row]), actor, now, Noted(action, d)))
  {
    DeletionMoved(db, d, row);
    NotedKeeps(db.(deletions := db.deletions[d := row]), actor, now, action, d);
  }

  lemma ClaimDeletionRequestKeeps(db: Db, request: Id, worker: Id, duration: Time, now: Time)
    requires Inv(db)
    ensures Inv(ClaimDeletionRequest(db, request, worker, duration, now).After(db))
  {
    if ClaimDeletionRequest(db, request, worker, duration, now).Commit? {
      var row := db.deletions[request];
      var next := ClaimVerdict(row, db.sessions[row.session].state, Held(db.holds), worker, duration, now);
      if next.status == Leased {
        DeletionMoved(db, request, row.(lease := next));
      } else {
        DeletionNoted(db, request, row.(lease := next), worker, now, DeletionNote(next.status));
      }
    }
  }

  lemma RequeueDeletionRequestKeeps(db: Db, request: Id, worker: Id, maxAttempts: int, now: Time)
    requires Inv(db)
    ensures Inv(RequeueDeletionRequest(db, request, worker, maxAttempts, now).After(db))
  {
    if RequeueDeletionRequest(db, request, worker, maxAttempts, now).Commit? {
      var row := db.deletions[request];
      var next := RequeueVerdict(row.lease, maxAttempts, now);
      DeletionNoted(db, request, row.(lease := next), worker, now, DeletionNote(next.status));
    }
  }

  lemma RetryDeadLetterDeletionRequestKeeps(db: Db, request: Id, actor: Id, now: Time)
    requires Inv(db)
    ensures Inv(RetryDeadLetterDeletionRequest(db, request, actor, now).After(db))
  {
    var o := RetryDeadLetterDeletionRequest(db, request, actor, now);
    if o.Commit? {
      var row := o.db.deletions[request];
      if row.session in db.members {
        MemberReleased(db, row.session);
      }
      DeletionWritten(db, request, row);
      NotedKeeps(db.(deletions := o.db.deletions), actor, now, "session.deletion_manual_retry", request);
    }
  }

  /** A leased deletion's session is live, unheld, in no release, and has no other active request. */
  lemma LeasedDeletion(db: Db, d: Id)
    requires Inv(db) && d in db.deletions && db.deletions[d].lease.status == Leased
    ensures var s := db.deletions[d].session;
            && s in LiveSessions(db.sessions) && s !in Held(db.holds) && s !in db.members
            && (forall e | e in db.deletions && e != d && ActiveRequest(db.deletions[e]) :: db.deletions[e].session != s)
            && (forall j | j in db.redactions && RunningJob(db.redactions[j]) :: db.redactions[j].session != s)
  {
    var s := db.deletions[d].session;
    assert RespectsHold(db.deletions[d], db.holds) && ActiveRequest(db.deletions[d]);
    if s in db.members {
      MemberReleased(db, s);
    }
  }

  lemma CompleteDeletionRequestKeeps(db: Db, request: Id, worker: Id, now: Time)
    requires Inv(db)
    ensures Inv(CompleteDeletionRequest(db, request, worker, now).After(db))
  {
    if CompleteDeletionRequest(db, request, worker, now).Commit? {
      LeasedDeletion(db, request);
      var s := db.deletions[request].session;
      var row := db.deletions[request].(lease := Parked(db.deletions[request].lease, Completed));
      DeletionMoved(db, request, row);
      var closed := db.(deletions := db.deletions[request := row]);
      RowsErased(closed, s, now);
      var erased := Erase(closed, s, now).(sessions := db.sessions);
      Tombstoned(erased, s, worker, now);
    }
  }

  // Retention.

  lemma UpsertRetentionPolicyKeeps(db: Db, organization: Id, rawDays: int, derivedDays: int, releaseDays: int, actor: Id, now: Time)
    requires Inv(db)
    ensures Inv(UpsertRetentionPolicy(db, organization, rawDays, derivedDays, releaseDays, actor, now).After(db))
  {
    if UpsertRetentionPolicy(db, organization, rawDays, derivedDays, releaseDays, actor, now).Commit? {
      var policy := Policy(rawDays, derivedDays, releaseDays, now);
      PolicyWritten(db, organization, policy);
      NotedKeeps(db.(policies := db.policies[organization := policy]), actor, now, "retention_policy.updated", organization);
    }
  }

  lemma PurgeNoted(db: Db, q: Id, row: PurgeRequest, actor: Id, now: Time, action: string)
    requires Inv(db) && PurgeRespectsHold(row, db.holds, db.members) && PurgeGrounded(row, db.policies, db.releases)
    ensures Inv(Logged(db.(purges := db.purges[q := row]), actor, now, Noted(action, q)))
  {
    PurgeWritten(db, q, row);
    NotedKeeps(db.(purges := db.purges[q := row]), actor, now, action, q);
  }

  /** The sweep inserts rows for existing releases only, since only those have an organization. */
  lemma {:induction false} QueueEachKeeps(db: Db, batch: seq<Resource>, ids: seq<Id>, actor: Id, now: Time)
    requires Inv(db) && |batch| <= |ids|
    ensures Inv(QueueEach(db, batch, ids, actor, now)) && QueueEach(db, batch, ids, actor, now).releases == db.releases
  {
    if batch != [] {
      var last := |batch| - 1;
      QueueEachKeeps(db, batch[..last], ids, actor, now);
      QueueOneKeeps(QueueEach(db, batch[..last], ids, actor, now), db, batch[last], ids[last], actor, now);
    }
  }

  lemma QueueOneKeeps(db: Db, source: Db, resource: Resource, id: Id, actor: Id, now: Time)
    requires Inv(db) && db.releases == source.releases
    ensures Inv(QueueOne(db, source, resource, id, actor, now)) && QueueOne(db, source, resource, id, actor, now).releases == db.releases
  {
    var queued := QueueOne(db, source, resource, id, actor, now);
    if queued != db {
      PurgeNoted(db, id, queued.purges[id], actor, now, "retention.purge_queued");
    }
  }

  lemma QueueExpiredRetentionKeeps(db: Db, limit: nat, ids: seq<Id>, actor: Id, now: Time)
    requires Inv(db)
    ensures Inv(QueueExpiredRetention(db, limit, ids, actor, now).After(db))
  {
    if QueueExpiredRetention(db, limit, ids, actor, now).Commit? {
      QueueEachKeeps(db, Batch(db, limit, now), ids, actor, now);
    }
  }

  /** Any new lease on an existing purge row that agrees with the holds and, if leased, with the policy. */
  lemma PurgeMoved(db: Db, q: Id, lease: Lease, actor: Id, now: Time, action: string)
    requires Inv(db) && q in db.purges
    requires lease.status != Leased
    requires lease.status == Blocked ==> TouchesHeld(db.purges[q].resource, db.members, db.holds)
    ensures Inv(Logged(db.(purges := db.purges[q := db.purges[q].(lease := lease)]), actor, now, Noted(action, q)))
  {
    assert PurgeGrounded(db.purges[q], db.policies, db.releases);
    PurgeNoted(db, q, db.purges[q].(lease := lease), actor, now, action);
  }

  lemma ClaimRetentionPurgeKeeps(db: Db, request: Id, worker: Id, duration: Time, now: Time)
    requires Inv(db)
    ensures Inv(ClaimRetentionPurge(db, request, worker, duration, now).After(db))
  {
    if ClaimRetentionPurge(db, request, worker, duration, now).Commit? {
      var row := db.purges[request];
      var next := PurgeVerdict(db, row, db.policies[row.organization], worker, duration, now);
      assert PurgeGrounded(row, db.policies, db.releases);
      if next.status == Leased {
        PurgeWritten(db, request, row.(lease := next));
      } else {
        PurgeMoved(db, request, next, worker, now, PurgeNote(next.status));
      }
    }
  }

  lemma RequeueRetentionPurgeKeeps(db: Db, request: Id, worker: Id, maxAttempts: int, now: Time)
    requires Inv(db)
    ensures Inv(RequeueRetentionPurge(db, request, worker, maxAttempts, now).After(db))
  {
    if RequeueRetentionPurge(db, request, worker, maxAttempts, now).Commit? {
      var next := RequeueVerdict(db.purges[request].lease, maxAttempts, now);
      PurgeMoved(db, request, next, worker, now, PurgeNote(next.status));
    }
  }

  lemma MarkedMoved(marked: Db, purges: map<Id, PurgeRequest>, q: Id, lease: Lease, actor: Id, now: Time)
    requires Inv(marked) && marked.purges == purges && q in purges && lease.status == Completed
    ensures Inv(Logged(marked.(purges := purges[q := purges[q].(lease := lease)]), actor, now, Noted("retention.purge_completed", q)))
  {
    PurgeMoved(marked, q, lease, actor, now, "retention.purge_completed");
  }

  lemma CompleteRetentionPurgeKeeps(db: Db, request: Id, worker: Id, now: Time)
    requires Inv(db)
    ensures Inv(CompleteRetentionPurge(db, request, worker, now).After(db))
  {
    if CompleteRetentionPurge(db, request, worker, now).Commit? {
      var row := db.purges[request];
      PurgeMarked(db, row.resource, now);
      MarkedMoved(MarkPurged(db, row.resource, now), db.purges, request, Parked(row.lease, Completed), worker, now);
    }
  }

  lemma RetryDeadLetterRetentionPurgeKeeps(db: Db, request: Id, actor: Id, now: Time)
    requires Inv(db)
    ensures Inv(RetryDeadLetterRetentionPurge(db, request, actor, now).After(db))
  {
    if RetryDeadLetterRetentionPurge(db, request, actor, now).Commit? {
      var row := db.purges[request];
      PurgeMoved(db, request, Retried(row.lease, now).(manualRequeues := row.lease.manualRequeues), actor, now,
                 "retention.purge_manual_retry");
    }
  }

  // Releases.

  /** What must hold of a session for release `r` to take it. */
  ghost predicate Releasable(db: Db, s: Id, r: Id) {
    && s in db.sessions && db.sessions[s].state == Accepted && s !in db.members
    && r in db.releases && ProjectOf(db, s) == Some(db.releases[r].project)
    && Vetted(db.reviews, s)
    && !HasDeletion(db.deletions, s, ActiveDeletion)
  }

  ghost predicate AllReleasable(db: Db, ids: seq<Id>, r: Id) {
    forall s :: s in ids ==> Releasable(db, s, r)
  }

  lemma ReleaseOneKeeps(db: Db, r: Id, s: Id, actor: Id, now: Time)
    requires Inv(db) && Releasable(db, s, r)
    requires forall q | q in db.purges :: db.purges[q].resource != ReleaseObjects(r)
    ensures Inv(Moved(db.(members := db.members[s := r]), s, SessionState.Released, actor, now))
  {
    MovedKeeps(db, s, SessionState.Released, actor, now);
    MemberAdded(Moved(db, s, SessionState.Released, actor, now), s, r);
  }

  lemma {:induction false} ReleaseEachKeeps(db: Db, r: Id, ids: seq<Id>, actor: Id, now: Time)
    requires Inv(db) && AllReleasable(db, ids, r) && Distinct(ids)
    requires forall q | q in db.purges :: db.purges[q].resource != ReleaseObjects(r)
    ensures var after := ReleaseEach(db, r, ids, actor, now);
            Inv(after) && after == db.(sessions := after.sessions, members := after.members, audit := after.audit)
    ensures var after := ReleaseEach(db, r, ids, actor, now);
            forall s | s in db.sessions && s !in ids ::
              after.sessions[s] == db.sessions[s] && (s in after.members <==> s in db.members)
  {
    if ids != [] {
      var last := |ids| - 1;
      ReleaseEachKeeps(db, r, ids[..last], actor, now);
      var before := ReleaseEach(db, r, ids[..last], actor, now);
      assert Releasable(db, ids[last], r) && ids[last] !in ids[..last];
      ReleaseOneKeeps(before, r, ids[last], actor, now);
    }
  }
}
