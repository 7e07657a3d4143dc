/** Every table write a step makes keeps the invariants under the guard the step checks. */
module Safety {
  import opened Common
  import opened Sessions
  import opened Queues
  import opened Tables
  import opened ErasureSteps
  import opened RetentionSteps
  import opened ReleaseSteps
  import opened Audit
  import opened Invariants

  lemma NotedKeeps(db: Db, actor: Id, now: Time, action: string, subject: Id)
    requires Inv(db)
    ensures Inv(Logged(db, actor, now, Noted(action, subject)))
  {
    Appended(db.audit, AuditEvent(actor, now, Noted(action, subject)));
  }

  lemma MovedConsented(sessions: map<Id, SessionRow>, assignments: map<Id, Assignment>, acceptances: map<AcceptanceKey, Time>,
                       s: Id, row: SessionRow)
    requires Consented(sessions, assignments, acceptances) && s in sessions
    requires row == sessions[s].(state := row.state, updatedAt := row.updatedAt)
    requires NeedsConsent(row.state) ==> row.consent.Some?
    ensures Consented(sessions[s := row], assignments, acceptances)
  {
    assert RowConsented(sessions[s], assignments, acceptances);
  }

  lemma MovedMembers(db: Db, s: Id, row: SessionRow)
    requires MembersAreFinal(db) && s !in db.members
    ensures MembersAreFinal(db.(sessions := db.sessions[s := row]))
  {
  }

  /** RELEASED and FAILED and DELETED have no way out, so a legal move cannot leave them. */
  lemma AllowedLeaves(from: SessionState, to: SessionState)
    requires Allowed(from, to)
    ensures from != SessionState.Released && from != Failed && from != Deleted && to != Deleted && to != Created
    ensures NeedsConsent(to) ==> NeedsConsent(from) || to == Ready || from == Created
    ensures from == Created ==> to == Assigned || to == SessionState.Cancelled
  {
  }

  /** A legal move of a session keeps everything. */
  lemma MovedKeeps(db: Db, s: Id, to: SessionState, actor: Id, now: Time)
    requires Inv(db)
    requires s in db.sessions && Allowed(db.sessions[s].state, to)
    requires to == Ready ==> db.sessions[s].consent.Some?
    ensures Inv(Moved(db, s, to, actor, now))
  {
    var from := db.sessions[s].state;
    AllowedLeaves(from, to);
    var row := db.sessions[s].(state := to, updatedAt := now);
    var after := db.sessions[s := row];
    assert RowConsented(db.sessions[s], db.assignments, db.acceptances);
    MovedConsented(db.sessions, db.assignments, db.acceptances, s, row);
    MovedMembers(db, s, row);
    Appended(db.audit, AuditEvent(actor, now, Transitioned(s, from, to)));
    assert LiveSessions(after) == LiveSessions(db.sessions);
  }

  /** A fresh session enters as ASSIGNED and without consent, through assignment or as a rework successor. */
  lemma SessionAdded(db: Db, s: Id, row: SessionRow, event: AuditEvent)
    requires Inv(db)
    requires s !in db.sessions && row.state == Assigned && row.consent == None && row.assignment in db.assignments
    requires event.entry == Transitioned(s, Created, Assigned)
             || (event.entry.ReworkAssigned? && event.entry.session == s && event.entry.parent in db.sessions)
    ensures Inv(db.(sessions := db.sessions[s := row], audit := db.audit + [event]))
  {
    Appended(db.audit, event);
    assert Replay(db.audit, s) == StateOf(db.sessions, s);
    var live := LiveSessions(db.sessions);
    var grown := LiveSessions(db.sessions[s := row]);
    assert grown == live + {s};
    LiveGrows(db, live, grown);
    MovedMembers(db, s, row);
  }

  lemma LiveGrows(db: Db, live: set<Id>, grown: set<Id>)
    requires RowsLive(db, live) && live <= grown
    ensures RowsLive(db, grown)
  {
  }

  lemma AssignmentAdded(db: Db, assignment: Id, row: Assignment)
    requires Inv(db) && assignment !in db.assignments
    ensures Inv(db.(assignments := db.assignments[assignment := row]))
  {
    var assignments := db.assignments[assignment := row];
    forall s | s in db.sessions ensures RowConsented(db.sessions[s], assignments, db.acceptances) {
      assert RowConsented(db.sessions[s], db.assignments, db.acceptances);
    }
  }

  /** A contributor's acceptance reaches the session it was given for. */
  lemma ConsentWritten(db: Db, s: Id, key: AcceptanceKey, acceptances: map<AcceptanceKey, Time>, now: Time)
    requires Inv(db)
    requires s in db.sessions && db.sessions[s].state == Assigned && db.sessions[s].assignment in db.assignments
    requires key.contributor == db.assignments[db.sessions[s].assignment].contributor
    requires key in acceptances && db.acceptances.Keys <= acceptances.Keys
    ensures Inv(db.(acceptances := acceptances, sessions := db.sessions[s := db.sessions[s].(consent := Some(key), updatedAt := now)]))
  {
    var row := db.sessions[s].(consent := Some(key), updatedAt := now);
    var sessions := db.sessions[s := row];
    forall x | x in sessions ensures RowConsented(sessions[x], db.assignments, acceptances) {
      assert x != s ==> RowConsented(db.sessions[x], db.assignments, db.acceptances);
    }
    assert LiveSessions(sessions) == LiveSessions(db.sessions);
    MovedMembers(db, s, row);
    assert forall x :: StateOf(sessions, x) == StateOf(db.sessions, x);
  }

  lemma JobWritten(db: Db, job: Id, row: ValidationJob)
    requires Inv(db)
    requires row.session in LiveSessions(db.sessions) && row.lease.status != DeadLetter
    ensures Inv(db.(jobs := db.jobs[job := row]))
  {
  }

  /** Dead-lettering a job whose session has just failed. */
  lemma JobBuried(db: Db, job: Id, row: ValidationJob)
    requires Inv(db)
    requires row.session in db.sessions && db.sessions[row.session].state == Failed && row.lease.status == DeadLetter
    requires forall j | j in db.jobs && db.jobs[j].lease.status == DeadLetter :: db.jobs[j].session != row.session
    ensures Inv(db.(jobs := db.jobs[job := row]))
  {
  }

  /** The one way out of FAILED takes the session's only dead-lettered job with it. */
  lemma JobRecovered(db: Db, job: Id, row: ValidationJob, actor: Id, now: Time)
    requires Inv(db)
    requires job in db.jobs && db.jobs[job].lease.status == DeadLetter
    requires row.session == db.jobs[job].session && row.lease.status == Queued
    requires row.session in db.sessions && db.sessions[row.session].state == Failed
    ensures Inv(db.(jobs := db.jobs[job := row],
                    sessions := db.sessions[row.session := db.sessions[row.session].(state := Processing, updatedAt := now)],
                    audit := db.audit + [AuditEvent(actor, now, ProcessingRecovered(row.session, Failed, Processing))]))
  {
    var s := row.session;
    var recovered := db.sessions[s].(state := Processing, updatedAt := now);
    var event := AuditEvent(actor, now, ProcessingRecovered(s, Failed, Processing));
    Appended(db.audit, event);
    assert RowConsented(db.sessions[s], db.assignments, db.acceptances);
    MovedConsented(db.sessions, db.assignments, db.acceptances, s, recovered);
    MovedMembers(db, s, recovered);
    assert LiveSessions(db.sessions[s := recovered]) == LiveSessions(db.sessions);
  }

  lemma ResultWritten(db: Db, v: Id, row: ValidationResult)
    requires Inv(db) && row.session in LiveSessions(db.sessions)
    ensures Inv(db.(results := db.results[v := row]))
  {
  }

  lemma ArtifactWritten(db: Db, key: RawKey, row: Artifact)
    requires Inv(db) && key.session in LiveSessions(db.sessions)
    ensures Inv(db.(artifacts := db.artifacts[key := row]))
  {
  }

  lemma ClaimsWritten(db: Db, claims: map<Id, ReviewClaim>)
    requires Inv(db) && claims.Keys <= LiveSessions(db.sessions)
    ensures Inv(db.(claims := claims))
  {
  }

  /** A review of a session outside every release cannot change what any release relies on. */
  lemma ReviewWritten(db: Db, r: Id, row: Review)
    requires Inv(db) && r !in db.reviews && row.session !in db.members && row.session in LiveSessions(db.sessions)
    ensures Inv(db.(reviews := db.reviews[r := row]))
  {
    forall s | s in db.members ensures Vetted(db.reviews[r := row], s) {
      assert MemberIsFinal(s, db.members[s], db.sessions, db.assignments, db.tasks, db.reviews, db.deletions, db.releases);
      StillVetted(db.reviews, r, row, s);
    }
  }

  lemma StillVetted(reviews: map<Id, Review>, r: Id, row: Review, s: Id)
    requires Vetted(reviews, s) && r !in reviews && row.session != s
    ensures Vetted(reviews[r := row], s)
  {
    var x :| x in reviews && LatestReview(reviews, s, x) && reviews[x].decision == AcceptedDecision && reviews[x].pii == Passed;
    assert LatestReview(reviews[r := row], s, x);
  }

  lemma PlanWritten(db: Db, p: Id, row: Plan)
    requires Inv(db) && row.session in LiveSessions(db.sessions)
    ensures Inv(db.(plans := db.plans[p := row]))
  {
  }

  /** A running redaction may be written only for a session without a pending deletion. */
  lemma RedactionWritten(db: Db, j: Id, row: RedactionJob)
    requires Inv(db) && row.session in LiveSessions(db.sessions)
    requires RunningJob(row) ==> !HasDeletion(db.deletions, row.session, PendingDeletion)
    ensures Inv(db.(redactions := db.redactions[j := row]))
  {
  }

  lemma HoldPlaced(db: Db, h: Id, s: Id)
    requires Inv(db) && h !in db.holds && s !in Held(db.holds) && s in LiveSessions(db.sessions)
    requires forall d | d in db.deletions :: db.deletions[d].session == s ==> db.deletions[d].lease.status != Leased
    requires forall q | q in db.purges :: Touches(db.purges[q].resource, db.members, s) ==> db.purges[q].lease.status != Leased
    ensures Inv(db.(holds := db.holds[h := LegalHold(s, None)]))
  {
    var holds := db.holds[h := LegalHold(s, None)];
    HeldAfterPlacing(db.holds, h, s);
    forall q | q in db.purges ensures PurgeRespectsHold(db.purges[q], holds, db.members) {
      assert PurgeRespectsHold(db.purges[q], db.holds, db.members);
    }
    forall d | d in db.deletions ensures RespectsHold(db.deletions[d], holds) {
      assert RespectsHold(db.deletions[d], db.holds);
    }
  }

  lemma HeldAfterPlacing(holds: map<Id, LegalHold>, h: Id, s: Id)
    requires h !in holds
    ensures Held(holds[h := LegalHold(s, None)]) == Held(holds) + {s}
  {
    var placed := holds[h := LegalHold(s, None)];
    forall x | x in Held(holds) ensures x in Held(placed) {
      var k :| k in holds && holds[k].releasedAt == None && holds[k].session == x;
      assert placed[k] == holds[k];
    }
    assert placed[h].session == s;
  }

  /** Releasing a session's only active hold leaves it unheld. */
  lemma HeldAfterReleasing(holds: map<Id, LegalHold>, h: Id, s: Id, now: Time)
    requires OneHold(holds) && h in holds && holds[h] == LegalHold(s, None)
    ensures Held(holds[h := LegalHold(s, Some(now))]) == Held(holds) - {s}
  {
    var after := holds[h := LegalHold(s, Some(now))];
    forall x | x in Held(holds) - {s} ensures x in Held(after) {
      var k :| k in holds && holds[k].releasedAt == None && holds[k].session == x;
      assert after[k] == holds[k];
    }
  }

  lemma HoldReleased(db: Db, h: Id, s: Id, now: Time)
    requires Inv(db) && h in db.holds && db.holds[h] == LegalHold(s, None)
    ensures Inv(db.(holds := db.holds[h := LegalHold(s, Some(now))],
                    deletions := UnblockDeletions(db.deletions, s, now),
                    purges := UnblockPurges(db.purges, db.members, s, now)))
  {
    var holds := db.holds[h := LegalHold(s, Some(now))];
    var deletions := UnblockDeletions(db.deletions, s, now);
    var purges := UnblockPurges(db.purges, db.members, s, now);
    HeldAfterReleasing(db.holds, h, s, now);
    forall d | d in deletions ensures RespectsHold(deletions[d], holds) {
      assert RespectsHold(db.deletions[d], db.holds);
    }
    forall q | q in purges ensures PurgeRespectsHold(purges[q], holds, db.members) {
      UnblockedPurgeRespectsHold(db, q, holds, s, now);
    }
    forall q | q in purges ensures PurgeGrounded(purges[q], db.policies, db.releases) {
      assert PurgeGrounded(db.purges[q], db.policies, db.releases);
    }
    UnblockedDeletionsSame(db, deletions, s, now);
  }

  /** A purge that stays blocked still touches another held session. */
  lemma UnblockedPurgeRespectsHold(db: Db, q: Id, holds: map<Id, LegalHold>, s: Id, now: Time)
    requires PurgesRespectHolds(db.holds, db.purges, db.members) && Held(holds) == Held(db.holds) - {s}
    requires q in db.purges
    ensures PurgeRespectsHold(UnblockPurges(db.purges, db.members, s, now)[q], holds, db.members)
  {
    assert PurgeRespectsHold(db.purges[q], db.holds, db.members);
    var row := db.purges[q];
    if row.lease.status == Blocked && !Touches(row.resource, db.members, s) {
      var x :| x in Held(db.holds) && Touches(row.resource, db.members, x);
      assert x in Held(holds);
    }
  }

  /** Unblocking moves requests within the active ones. */
  lemma UnblockedDeletionsSame(db: Db, deletions: map<Id, DeletionRequest>, s: Id, now: Time)
    requires Inv(db) && deletions == UnblockDeletions(db.deletions, s, now)
    ensures OneDeletion(deletions) && DeletionsLive(deletions, LiveSessions(db.sessions))
    ensures RedactionExcludesDeletion(db.redactions, deletions)
    ensures forall x :: HasDeletion(deletions, x, ActiveDeletion) == HasDeletion(db.deletions, x, ActiveDeletion)
  {
    assert forall d | d in deletions ::
      deletions[d].session == db.deletions[d].session && ActiveRequest(deletions[d]) == ActiveRequest(db.deletions[d])
      && PendingRequest(deletions[d]) == PendingRequest(db.deletions[d]);
    forall x ensures HasDeletion(deletions, x, ActiveDeletion) == HasDeletion(db.deletions, x, ActiveDeletion) {
      if HasDeletion(deletions, x, ActiveDeletion) {
        var d :| d in deletions && deletions[d].session == x && deletions[d].lease.status in ActiveDeletion;
        assert ActiveRequest(db.deletions[d]);
      }
      if HasDeletion(db.deletions, x, ActiveDeletion) {
        var d :| d in db.deletions && db.deletions[d].session == x && db.deletions[d].lease.status in ActiveDeletion;
        assert ActiveRequest(deletions[d]);
      }
    }
  }

  /** A deletion row may be written when it agrees with the holds, is alone if active, and nothing relies on its session. */
  lemma DeletionWritten(db: Db, d: Id, row: DeletionRequest)
    requires Inv(db) && RespectsHold(row, db.holds)
    requires ActiveRequest(row) ==> row.session in LiveSessions(db.sessions) && row.session !in db.members
    requires ActiveRequest(row) ==>
               forall e | e in db.deletions && e != d && ActiveRequest(db.deletions[e]) :: db.deletions[e].session != row.session
    requires PendingRequest(row) ==>
               forall j | j in db.redactions && RunningJob(db.redactions[j]) :: db.redactions[j].session != row.session
    requires d in db.deletions ==> db.deletions[d].session == row.session
    ensures Inv(db.(deletions := db.deletions[d := row]))
  {
    var deletions := db.deletions[d := row];
    forall s | s in db.members ensures !HasDeletion(deletions, s, ActiveDeletion) {
      assert MemberIsFinal(s, db.members[s], db.sessions, db.assignments, db.tasks, db.reviews, db.deletions, db.releases);
      assert forall e | e in deletions && deletions[e].session == s :: e in db.deletions ==> !ActiveRequest(db.deletions[e]);
    }
  }

  lemma PolicyWritten(db: Db, organization: Id, policy: Policy)
    requires Inv(db)
    requires forall q | q in db.purges && db.purges[q].lease.status == Leased :: db.purges[q].organization != organization
    ensures Inv(db.(policies := db.policies[organization := policy]))
  {
    forall q | q in db.purges ensures PurgeGrounded(db.purges[q], db.policies[organization := policy], db.releases) {
      assert PurgeGrounded(db.purges[q], db.policies, db.releases);
    }
  }

  lemma PurgeWritten(db: Db, q: Id, row: PurgeRequest)
    requires Inv(db) && PurgeRespectsHold(row, db.holds, db.members) && PurgeGrounded(row, db.policies, db.releases)
    ensures Inv(db.(purges := db.purges[q := row]))
  {
  }

  lemma ArtifactsMarked(db: Db, artifacts: map<RawKey, Artifact>)
    requires Inv(db) && artifacts.Keys == db.artifacts.Keys
    ensures Inv(db.(artifacts := artifacts))
  {
    forall k | k in artifacts ensures k.session in LiveSessions(db.sessions) {
      assert k in db.artifacts;
    }
  }

  lemma DerivedMarked(db: Db, results: map<Id, ValidationResult>, redactions: map<Id, RedactionJob>)
    requires Inv(db) && results.Keys == db.results.Keys && redactions.Keys == db.redactions.Keys
    requires forall v | v in results :: results[v].session == db.results[v].session
    requires forall j | j in redactions ::
               redactions[j].session == db.redactions[j].session && redactions[j].lease == db.redactions[j].lease
    ensures Inv(db.(results := results, redactions := redactions))
  {
    assert forall j | j in redactions :: j in db.redactions && RunningJob(redactions[j]) == RunningJob(db.redactions[j]);
  }

  lemma ReleasesMarked(db: Db, releases: map<Id, Release>)
    requires Inv(db) && releases.Keys == db.releases.Keys
    requires forall r | r in releases :: releases[r].project == db.releases[r].project
    ensures Inv(db.(releases := releases))
  {
    forall q | q in db.purges ensures PurgeGrounded(db.purges[q], db.policies, releases) {
      assert PurgeGrounded(db.purges[q], db.policies, db.releases);
    }
    MembersKept(db, releases);
  }

  lemma RawMarked(db: Db, s: Id, now: Time)
    requires Inv(db)
    ensures Inv(MarkPurged(db, SessionRaw(s), now))
  {
    ArtifactsMarked(db, MarkPurged(db, SessionRaw(s), now).artifacts);
  }

  lemma OutputsMarked(db: Db, s: Id, now: Time)
    requires Inv(db)
    ensures Inv(MarkPurged(db, SessionDerived(s), now))
  {
    var after := MarkPurged(db, SessionDerived(s), now);
    DerivedMarked(db, after.results, after.redactions);
  }

  lemma ObjectsMarked(db: Db, r: Id, now: Time)
    requires Inv(db)
    ensures Inv(MarkPurged(db, ReleaseObjects(r), now))
  {
    if r in db.releases {
      ReleasesMarked(db, MarkPurged(db, ReleaseObjects(r), now).releases);
    }
  }

  /** Marking rows purged changes no row's session, lease or release. */
  lemma PurgeMarked(db: Db, resource: Resource, now: Time)
    requires Inv(db)
    ensures Inv(MarkPurged(db, resource, now)) && MarkPurged(db, resource, now).purges == db.purges
  {
    match resource
    case SessionRaw(s) => RawMarked(db, s, now);
    case SessionDerived(s) => OutputsMarked(db, s, now);
    case ReleaseObjects(r) => ObjectsMarked(db, r, now);
  }

  lemma MembersKept(db: Db, releases: map<Id, Release>)
    requires MembersAreFinal(db)
    requires forall r | r in db.releases :: r in releases && releases[r].project == db.releases[r].project
    ensures MembersAreFinal(db.(releases := releases))
  {
    forall s | s in db.members
      ensures MemberIsFinal(s, db.members[s], db.sessions, db.assignments, db.tasks, db.reviews, db.deletions, releases)
    {
      assert MemberIsFinal(s, db.members[s], db.sessions, db.assignments, db.tasks, db.reviews, db.deletions, db.releases);
    }
  }

  lemma ReleaseAdded(db: Db, r: Id, row: Release)
    requires Inv(db) && r !in db.releases
    ensures Inv(db.(releases := db.releases[r := row]))
  {
    var releases := db.releases[r := row];
    forall q | q in db.purges ensures PurgeGrounded(db.purges[q], db.policies, releases) {
      assert PurgeGrounded(db.purges[q], db.policies, db.releases);
    }
    MembersKept(db, releases);
  }

  /** A session enters a release: nothing purges that release yet, and the session was reviewed and is not being deleted. */
  lemma MemberAdded(db: Db, s: Id, release: Id)
    requires Inv(db)
    requires MemberIsFinal(s, release, db.sessions, db.assignments, db.tasks, db.reviews, db.deletions, db.releases)
    requires s !in db.members
    requires forall q | q in db.purges :: db.purges[q].resource != ReleaseObjects(release)
    ensures Inv(db.(members := db.members[s := release]))
  {
    var members := db.members[s := release];
    forall q | q in db.purges ensures PurgeRespectsHold(db.purges[q], db.holds, members) {
      assert PurgeRespectsHold(db.purges[q], db.holds, db.members);
      assert forall x :: Touches(db.purges[q].resource, members, x) == Touches(db.purges[q].resource, db.members, x);
    }
  }

  lemma VettedWithout(reviews: map<Id, Review>, s: Id, x: Id)
    requires Vetted(reviews, x) && x != s
    ensures Vetted(map r | r in reviews && reviews[r].session != s :: reviews[r], x)
  {
    var r :| r in reviews && LatestReview(reviews, x, r) && reviews[r].decision == AcceptedDecision && reviews[r].pii == Passed;
    assert LatestReview(map q | q in reviews && reviews[q].session != s :: reviews[q], x, r);
  }

  lemma ReviewsErased(db: Db, s: Id)
    requires Inv(db) && s !in db.members
    ensures Inv(db.(reviews := map r | r in db.reviews && db.reviews[r].session != s :: db.reviews[r]))
  {
    var reviews := map r | r in db.reviews && db.reviews[r].session != s :: db.reviews[r];
    forall x | x in db.members ensures Vetted(reviews, x) {
      assert MemberIsFinal(x, db.members[x], db.sessions, db.assignments, db.tasks, db.reviews, db.deletions, db.releases);
      VettedWithout(db.reviews, s, x);
    }
  }

  /** Removing what a session outside every release owns. */
  lemma RowsErased(db: Db, s: Id, now: Time)
    requires Inv(db) && s !in db.members
    ensures Inv(Erase(db, s, now).(sessions := db.sessions))
  {
    ReviewsErased(db, s);
  }

  /** Nothing but released holds and finished deletions points at session s. */
  ghost predicate Unowned(db: Db, s: Id) {
    && s !in db.claims && s !in Held(db.holds) && s !in db.members
    && (forall r | r in db.reviews :: db.reviews[r].session != s)
    && (forall v | v in db.results :: db.results[v].session != s)
    && (forall p | p in db.plans :: db.plans[p].session != s)
    && (forall j | j in db.redactions :: db.redactions[j].session != s)
    && (forall j | j in db.jobs :: db.jobs[j].session != s)
    && (forall k | k in db.artifacts :: k.session != s)
    && (forall d | d in db.deletions && ActiveRequest(db.deletions[d]) :: db.deletions[d].session != s)
  }

  /** The session row that is left becomes a tombstone. */
  lemma Tombstoned(db: Db, s: Id, actor: Id, now: Time)
    requires Inv(db) && s in LiveSessions(db.sessions) && Unowned(db, s)
    ensures Inv(Logged(db.(sessions := db.sessions[s := db.sessions[s].(state := Deleted, consent := None, updatedAt := now)]),
                       actor, now, SessionDeleted(s)))
  {
    var row := db.sessions[s].(state := Deleted, consent := None, updatedAt := now);
    var sessions := db.sessions[s := row];
    assert Replay(db.audit, s) == StateOf(db.sessions, s);
    Appended(db.audit, AuditEvent(actor, now, SessionDeleted(s)));
    assert RowConsented(db.sessions[s], db.assignments, db.acceptances);
    assert LiveSessions(sessions) == LiveSessions(db.sessions) - {s};
    MovedMembers(db, s, row);
    UnownedLive(db, s, LiveSessions(db.sessions));
  }

  lemma UnownedLive(db: Db, s: Id, live: set<Id>)
    requires RowsLive(db, live) && Unowned(db, s)
    ensures RowsLive(db, live - {s})
  {
  }
}
