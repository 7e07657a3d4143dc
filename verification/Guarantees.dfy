/** What the control plane promises across transactions, for every reachable state and every continuation. */
module Guarantees {
  import opened Common
  import opened Sessions
  import opened Queues
  import opened Tables
  import opened ReviewSteps
  import opened ErasureSteps
  import opened RetentionSteps
  import opened ReleaseSteps
  import opened ControlPlane
  import opened Audit
  import opened Invariants
  import opened Preservation
  import opened Evolution
  import opened Runs

  // Legal holds, policies and the deleting queues.

  /** No held session is being deleted or purged, no purge runs under an outdated policy, and whatever is blocked is
      blocked by a hold that is still active. */
  lemma HoldsAreRespected(sys: System)
    requires Reachable(sys)
    ensures forall s, d | s in Held(sys.db.holds) && d in sys.db.deletions && sys.db.deletions[d].lease.status == Leased ::
              sys.db.deletions[d].session != s
    ensures forall s, q | s in Held(sys.db.holds) && q in sys.db.purges && sys.db.purges[q].lease.status == Leased ::
              !Touches(sys.db.purges[q].resource, sys.db.members, s)
    ensures forall q | q in sys.db.purges && sys.db.purges[q].lease.status == Leased ::
              sys.db.purges[q].organization in sys.db.policies
              && sys.db.policies[sys.db.purges[q].organization].updatedAt == sys.db.purges[q].policyUpdatedAt
    ensures forall d | d in sys.db.deletions && sys.db.deletions[d].lease.status == Blocked ::
              sys.db.deletions[d].session in Held(sys.db.holds)
    ensures forall q | q in sys.db.purges && sys.db.purges[q].lease.status == Blocked ::
              TouchesHeld(sys.db.purges[q].resource, sys.db.members, sys.db.holds)
  {
    ReachableSafe(sys);
    var db := sys.db;
    forall d | d in db.deletions ensures RespectsHold(db.deletions[d], db.holds) {
    }
    forall q | q in db.purges
      ensures PurgeRespectsHold(db.purges[q], db.holds, db.members) && PurgeGrounded(db.purges[q], db.policies, db.releases)
    {
    }
  }

  /** A worker that owns a lease on a deletion or a purge always completes it: the hold checks in the two completion
      transactions never fire. */
  lemma LeaseHoldersComplete(sys: System, request: Id, worker: Id, now: Time)
    requires Reachable(sys)
    ensures CompleteDeletionRequest(sys.db, request, worker, now).Commit?
            <==> request in sys.db.deletions && OwnedBy(sys.db.deletions[request].lease, worker)
    ensures CompleteRetentionPurge(sys.db, request, worker, now).Commit?
            <==> request in sys.db.purges && OwnedBy(sys.db.purges[request].lease, worker)
  {
    ReachableSafe(sys);
    if request in sys.db.deletions {
      assert RespectsHold(sys.db.deletions[request], sys.db.holds);
    }
    if request in sys.db.purges {
      assert PurgeRespectsHold(sys.db.purges[request], sys.db.holds, sys.db.members);
    }
  }

  // Runs from one state to a later one.

  lemma RunSnoc(sys: System, calls: seq<Call>, call: Call)
    ensures Run(sys, calls + [call]) == Step(Run(sys, calls), call)
  {
    assert (calls + [call])[..|calls|] == calls;
  }

  lemma {:induction false} RunConcat(sys: System, calls: seq<Call>, more: seq<Call>)
    ensures Run(sys, calls + more) == Run(Run(sys, calls), more)
  {
    if more == [] {
      assert calls + more == calls;
    } else {
      var (prefix, last) := (more[..|more| - 1], more[|more| - 1]);
      RunConcat(sys, calls, prefix);
      RunSnoc(sys, calls + prefix, last);
      RunSnoc(Run(sys, calls), prefix, last);
      assert calls + more == calls + prefix + [last] && more == prefix + [last];
    }
  }

  lemma ReachableRun(sys: System, calls: seq<Call>)
    requires Reachable(sys)
    ensures Reachable(Run(sys, calls))
  {
    var start, before :| Initial(start) && sys == Run(start, before);
    RunConcat(start, before, calls);
  }

  lemma {:induction false} MembersPersist(sys: System, calls: seq<Call>)
    ensures MembersEvolve(sys.db.members, Run(sys, calls).db.members)
  {
    if calls != [] {
      MembersPersist(sys, calls[..|calls| - 1]);
      StepEvolves(Run(sys, calls[..|calls| - 1]), calls[|calls| - 1]);
    }
  }

  /** Once a session is in a committed release it stays there, RELEASED, accepted with PII passed by its latest review,
      and without a queued, leased or blocked deletion, whatever is called afterwards. */
  lemma ReleasedForever(sys: System, calls: seq<Call>, s: Id)
    requires Reachable(sys) && s in sys.db.members
    ensures var later := Run(sys, calls).db;
            && s in later.members && later.members[s] == sys.db.members[s]
            && s in later.sessions && later.sessions[s].state == SessionState.Released
            && Vetted(later.reviews, s)
            && !HasDeletion(later.deletions, s, ActiveDeletion)
  {
    ReachableRun(sys, calls);
    var later := Run(sys, calls).db;
    ReachableSafe(Run(sys, calls));
    MembersPersist(sys, calls);
    assert MemberIsFinal(s, later.members[s], later.sessions, later.assignments, later.tasks, later.reviews, later.deletions,
                         later.releases);
  }

  lemma {:induction false} TablesStayAgreed(start: System, calls: seq<Call>)
    requires TablesAgree(start.db.releases, start.db.members)
    ensures TablesAgree(Run(start, calls).db.releases, Run(start, calls).db.members)
  {
    if calls != [] {
      TablesStayAgreed(start, calls[..|calls| - 1]);
      StepEvolves(Run(start, calls[..|calls| - 1]), calls[|calls| - 1]);
    }
  }

  /** A session is a member of a release exactly when that release lists it among its sources. */
  lemma MembersAreSources(sys: System, r: Id, s: Id)
    requires Reachable(sys)
    ensures r in sys.db.releases && s in sys.db.releases[r].sources <==> s in sys.db.members && sys.db.members[s] == r
  {
    var start, calls :| Initial(start) && sys == Run(start, calls);
    TablesStayAgreed(start, calls);
    if r in sys.db.releases {
      assert Joined(r, sys.db.releases[r].sources, sys.db.members);
    }
  }

  lemma {:induction false} TombstonesPersist(sys: System, calls: seq<Call>, s: Id)
    requires s in sys.db.sessions && sys.db.sessions[s].state == Deleted
    ensures s in Run(sys, calls).db.sessions && Run(sys, calls).db.sessions[s].state == Deleted
  {
    if calls != [] {
      TombstonesPersist(sys, calls[..|calls| - 1], s);
      StepEvolves(Run(sys, calls[..|calls| - 1]), calls[|calls| - 1]);
    }
  }

  /** Nothing but released holds and finished deletion requests names session s. */
  ghost predicate Gone(db: Db, s: Id) {
    && s !in db.claims && s !in db.members && s !in Held(db.holds)
    && (forall r | r in db.reviews :: db.reviews[r].session != s)
    && (forall v | v in db.results :: db.results[v].session != s)
    && (forall p | p in db.plans :: db.plans[p].session != s)
    && (forall j | j in db.redactions :: db.redactions[j].session != s)
    && (forall j | j in db.jobs :: db.jobs[j].session != s)
    && (forall k | k in db.artifacts :: k.session != s)
    && (forall d | d in db.deletions && db.deletions[d].lease.status in ActiveDeletion :: db.deletions[d].session != s)
    && s in db.sessions && db.sessions[s].consent == None
  }

  /** An erased session stays a tombstone, and no later call attaches a row to it again. */
  lemma ErasedForever(sys: System, calls: seq<Call>, s: Id)
    requires Reachable(sys) && s in sys.db.sessions && sys.db.sessions[s].state == Deleted
    ensures s in Run(sys, calls).db.sessions && Run(sys, calls).db.sessions[s].state == Deleted
    ensures Gone(Run(sys, calls).db, s)
  {
    TombstonesPersist(sys, calls, s);
    ReachableRun(sys, calls);
    ReachableSafe(Run(sys, calls));
    TombstoneGone(Run(sys, calls).db, s);
  }

  lemma TombstoneGone(db: Db, s: Id)
    requires Inv(db) && s in db.sessions && db.sessions[s].state == Deleted
    ensures Gone(db, s)
  {
    assert s !in LiveSessions(db.sessions);
    if s in db.members {
      MemberReleased(db, s);
    }
    assert forall d | d in db.deletions :: db.deletions[d].lease.status in ActiveDeletion ==> ActiveRequest(db.deletions[d]);
  }

  /** A session moves to DELETED only in the completion of a leased deletion request for it, and never while held. */
  lemma OnlyLeasedDeletionErases(sys: System, call: Call, s: Id)
    requires s in sys.db.sessions && sys.db.sessions[s].state != Deleted
    requires s in Step(sys, call).db.sessions && Step(sys, call).db.sessions[s].state == Deleted
    ensures Erasable(sys.db.holds, sys.db.deletions, s, call.actor)
  {
    StepEvolves(sys, call);
    ErasureAuthorized(sys.db, Step(sys, call).db, CallerOf(call), s);
  }

  lemma ErasureAuthorized(before: Db, after: Db, c: Caller, s: Id)
    requires Evolves(before, after, c)
    requires s in before.sessions && before.sessions[s].state != Deleted && s in after.sessions && after.sessions[s].state == Deleted
    ensures Erasable(before.holds, before.deletions, s, c.who)
  {
  }

  // Redaction against deletion, consent.

  lemma RedactionExcludedByDeletion(sys: System, s: Id)
    requires Reachable(sys)
    ensures !(HasRedaction(sys.db.redactions, s, RunningRedaction) && HasDeletion(sys.db.deletions, s, PendingDeletion))
  {
    ReachableSafe(sys);
    var db := sys.db;
    assert forall d | d in db.deletions :: db.deletions[d].lease.status in PendingDeletion ==> PendingRequest(db.deletions[d]);
    assert forall j | j in db.redactions :: db.redactions[j].lease.status in RunningRedaction ==> RunningJob(db.redactions[j]);
  }

  /** Every session outside CREATED, ASSIGNED, CANCELLED and DELETED carries a consent given by its own contributor. */
  lemma ConsentIsHeld(sys: System, s: Id)
    requires Reachable(sys) && s in sys.db.sessions
    requires sys.db.sessions[s].state !in {Created, Assigned, SessionState.Cancelled, Deleted}
    ensures var row := sys.db.sessions[s];
            && row.consent.Some? && row.consent.value in sys.db.acceptances
            && row.assignment in sys.db.assignments
            && row.consent.value.contributor == sys.db.assignments[row.assignment].contributor
  {
    ReachableSafe(sys);
    assert RowConsented(sys.db.sessions[s], sys.db.assignments, sys.db.acceptances);
  }

  // The audit log.

  /** The log is a complete history: replaying it gives exactly the stored states, and every entry was legal when
      written. */
  lemma LogReplays(sys: System, s: Id)
    requires Reachable(sys)
    ensures Replay(sys.db.audit, s) == StateOf(sys.db.sessions, s)
    ensures forall i | 0 <= i < |sys.db.audit| :: Legal(sys.db.audit[..i], sys.db.audit[i].entry)
  {
    ReachableSafe(sys);
    LegalPrefixes(sys.db.audit);
  }

  lemma {:induction false} LegalPrefixes(log: seq<AuditEvent>)
    requires AllLegal(log)
    ensures forall i | 0 <= i < |log| :: Legal(log[..i], log[i].entry)
  {
    if log != [] {
      var last := |log| - 1;
      LegalPrefixes(log[..last]);
      forall i | 0 <= i < |log| ensures Legal(log[..i], log[i].entry) {
        if i < last {
          assert log[..last][..i] == log[..i] && log[..last][i] == log[i];
        }
      }
    }
  }

  // Dead-lettered validation jobs.

  lemma DeadLetterMeansFailed(sys: System, j: Id)
    requires Reachable(sys) && j in sys.db.jobs && sys.db.jobs[j].lease.status == DeadLetter
    ensures var s := sys.db.jobs[j].session;
            && s in sys.db.sessions && sys.db.sessions[s].state == Failed
            && forall k | k in sys.db.jobs && k != j && sys.db.jobs[k].lease.status == DeadLetter :: sys.db.jobs[k].session != s
  {
    ReachableSafe(sys);
  }

  // Where progress is not promised.

  /** Redactions are made for ACCEPTED sessions, and those only move on to RELEASED while they have any. */
  ghost predicate RedactionsFollow(db: Db) {
    forall j | j in db.redactions ::
      db.redactions[j].session in db.sessions && db.sessions[db.redactions[j].session].state in {Accepted, SessionState.Released}
  }

  lemma FollowEvolves(before: Db, after: Db, c: Caller)
    requires Evolves(before, after, c) && RedactionsFollow(before) && RowsLive(after, LiveSessions(after.sessions))
    ensures RedactionsFollow(after)
  {
    forall j | j in after.redactions
      ensures after.redactions[j].session in after.sessions
      ensures after.sessions[after.redactions[j].session].state in {Accepted, SessionState.Released}
    {
      assert after.redactions[j].session in LiveSessions(after.sessions);
      if j in before.redactions {
        assert RedactionEdge(before.redactions[j], after.redactions[j], before.sessions, c);
      } else {
        assert NewRedaction(after.redactions[j], after.sessions, c);
      }
    }
  }

  lemma {:induction false} RunFollows(start: System, calls: seq<Call>)
    requires Safe(start) && RedactionsFollow(start.db)
    ensures RedactionsFollow(Run(start, calls).db)
  {
    if calls != [] {
      var before := Run(start, calls[..|calls| - 1]);
      RunFollows(start, calls[..|calls| - 1]);
      RunSafe(start, calls);
      StepEvolves(before, calls[|calls| - 1]);
      FollowEvolves(before.db, Run(start, calls).db, CallerOf(calls[|calls| - 1]));
    }
  }

  lemma ReachableFollows(sys: System)
    requires Reachable(sys)
    ensures RedactionsFollow(sys.db)
  {
    var start, calls :| Initial(start) && sys == Run(start, calls);
    InitialSafe(start);
    RunFollows(start, calls);
  }

  /** A claimable redaction is leased exactly while its session is ACCEPTED: of the three checks of a claim only that one
      can fail in a reachable state. */
  lemma ClaimCommits(sys: System, j: Id, worker: Id, duration: Time, now: Time)
    requires Reachable(sys)
    ensures ClaimRedactionJob(sys.db, j, worker, duration, now).Commit? <==>
            && 0 < duration && j in sys.db.redactions && Claimable(sys.db.redactions[j].lease, now)
            && sys.db.redactions[j].session in sys.db.sessions && sys.db.sessions[sys.db.redactions[j].session].state == Accepted
  {
    if j in sys.db.redactions && Claimable(sys.db.redactions[j].lease, now) {
      assert HasRedaction(sys.db.redactions, sys.db.redactions[j].session, RunningRedaction);
      RedactionExcludedByDeletion(sys, sys.db.redactions[j].session);
    }
  }

  /** A queued redaction of a RELEASED session, and the session itself, stay as they are. */
  lemma StrandedStep(before: Db, after: Db, c: Caller, j: Id)
    requires Evolves(before, after, c) && RedactionExcludesDeletion(before.redactions, before.deletions)
    requires j in before.redactions && before.redactions[j].lease.status == Queued
    requires before.redactions[j].session in before.sessions
    requires before.sessions[before.redactions[j].session].state == SessionState.Released
    ensures j in after.redactions && after.redactions[j].session == before.redactions[j].session
    ensures after.redactions[j].lease == before.redactions[j].lease
    ensures before.redactions[j].session in after.sessions
    ensures after.sessions[before.redactions[j].session].state == SessionState.Released
  {
    var s := before.redactions[j].session;
    if Erasable(before.holds, before.deletions, s, c.who) {
      var d :| d in before.deletions && before.deletions[d].session == s && OwnedBy(before.deletions[d].lease, c.who);
      assert RunningJob(before.redactions[j]) && PendingRequest(before.deletions[d]);
      assert false;
    }
    assert j in after.redactions;
    assert RedactionEdge(before.redactions[j], after.redactions[j], before.sessions, c);
  }

  /** A release, or a plain transition to RELEASED, does not look at redaction jobs. One still queued then keeps its row
      and its place in the queue. */
  lemma {:induction false} ReleaseStrandsRedaction(sys: System, calls: seq<Call>, j: Id)
    requires Reachable(sys) && j in sys.db.redactions && sys.db.redactions[j].lease.status == Queued
    requires sys.db.redactions[j].session in sys.db.sessions
    requires sys.db.sessions[sys.db.redactions[j].session].state == SessionState.Released
    ensures var (s, later) := (sys.db.redactions[j].session, Run(sys, calls).db);
            && j in later.redactions && later.redactions[j].session == s && later.redactions[j].lease == sys.db.redactions[j].lease
            && s in later.sessions && later.sessions[s].state == SessionState.Released
  {
    if calls != [] {
      var before := Run(sys, calls[..|calls| - 1]);
      ReleaseStrandsRedaction(sys, calls[..|calls| - 1], j);
      ReachableRun(sys, calls[..|calls| - 1]);
      ReachableSafe(before);
      StepEvolves(before, calls[|calls| - 1]);
      StrandedStep(before.db, Run(sys, calls).db, CallerOf(calls[|calls| - 1]), j);
    }
  }

  /** No continuation ever leases redaction j. */
  ghost predicate Stranded(sys: System, j: Id) {
    forall calls, worker, duration, now :: ClaimRedactionJob(Run(sys, calls).db, j, worker, duration, now).Rollback?
  }

  /** A queued redaction is stranded exactly when its session is RELEASED. */
  lemma StrandedExactly(sys: System, j: Id)
    requires Reachable(sys) && j in sys.db.redactions && sys.db.redactions[j].lease.status == Queued
    ensures sys.db.redactions[j].session in sys.db.sessions
    ensures Stranded(sys, j) <==> sys.db.sessions[sys.db.redactions[j].session].state == SessionState.Released
  {
    ReachableFollows(sys);
    var lease := sys.db.redactions[j].lease;
    if sys.db.sessions[sys.db.redactions[j].session].state == SessionState.Released {
      forall calls, worker, duration, now
        ensures ClaimRedactionJob(Run(sys, calls).db, j, worker, duration, now).Rollback?
      {
        ReleaseStrandsRedaction(sys, calls, j);
        ReachableRun(sys, calls);
        ClaimCommits(Run(sys, calls), j, worker, duration, now);
      }
    } else {
      ClaimCommits(sys, j, 0, 1, lease.availableAt);
      assert Run(sys, []) == sys;
      assert !ClaimRedactionJob(Run(sys, []).db, j, 0, 1, lease.availableAt).Rollback?;
    }
  }
}
