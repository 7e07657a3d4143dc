/** Atomic steps of services/api/internal/database/release.go: listing candidates and committing a release. */
module ReleaseSteps {
  import opened Common
  import opened Sessions
  import opened Queues
  import opened Tables

  /** Review a is the later of the two in ORDER BY created_at, id. */
  predicate Later(reviews: map<Id, Review>, a: Id, b: Id)
    requires a in reviews && b in reviews
  {
    reviews[b].createdAt < reviews[a].createdAt || (reviews[b].createdAt == reviews[a].createdAt && b <= a)
  }

  predicate LatestReview(reviews: map<Id, Review>, s: Id, r: Id) {
    && r in reviews && reviews[r].session == s
    && forall x | x in reviews :: reviews[x].session == s ==> Later(reviews, r, x)
  }

  /** The latest review of session s accepted it with PII passed. */
  predicate Vetted(reviews: map<Id, Review>, s: Id) {
    exists r | r in reviews :: LatestReview(reviews, s, r) && reviews[r].decision == AcceptedDecision && reviews[r].pii == Passed
  }

  datatype Candidate = Candidate(session: Id, result: Id)

  predicate IsCandidate(db: Db, project: Id, wanted: set<Id>, c: Candidate) {
    && c.session in db.sessions && db.sessions[c.session].state == Accepted
    && ProjectOf(db, c.session) == Some(project)
    && c.result in db.results && db.results[c.result].session == c.session && db.results[c.result].valid
    && Vetted(db.reviews, c.session)
    && !HasDeletion(db.deletions, c.session, ActiveDeletion)
    && (wanted == {} || c.session in wanted)
  }

  /** The rows the query returns: every candidate once, by session. A session with two valid results appears twice. */
  ghost predicate Listing(db: Db, project: Id, wanted: set<Id>, rows: seq<Candidate>) {
    && (forall c :: c in rows <==> IsCandidate(db, project, wanted, c))
    && (forall i, j :: 0 <= i < j < |rows| ==> rows[i].session <= rows[j].session && rows[i] != rows[j])
  }

  predicate ListingAccepted(wanted: set<Id>, rows: seq<Candidate>) {
    rows != [] && (wanted == {} || |rows| == |wanted|)
  }

  function SessionsOf(rows: seq<Candidate>): (ids: seq<Id>)
    ensures |ids| == |rows| && forall i :: 0 <= i < |ids| ==> ids[i] == rows[i].session
  {
    seq(|rows|, i requires 0 <= i < |rows| => rows[i].session)
  }

  datatype ReleaseMeta = ReleaseMeta(id: Id, project: Id, name: Id, configurationHash: Id, manifestHash: Id)

  predicate NameTaken(releases: map<Id, Release>, project: Id, name: Id) {
    exists r | r in releases :: releases[r].project == project && releases[r].name == name
  }

  /** What looking a release up by project and name answers. */
  predicate NameLookup(releases: map<Id, Release>, project: Id, name: Id, found: Option<Id>) {
    match found
    case Some(r) => r in releases && releases[r].project == project && releases[r].name == name
    case None => !NameTaken(releases, project, name)
  }

  predicate Distinct(ids: seq<Id>) {
    forall i, j :: 0 <= i < j < |ids| ==> ids[i] != ids[j]
  }

  predicate AllAccepted(sessions: map<Id, SessionRow>, sources: seq<Id>) {
    forall s | s in sources :: s in sessions && sessions[s].state == Accepted
  }

  predicate AnyDeletion(deletions: map<Id, DeletionRequest>, sources: seq<Id>) {
    exists s | s in sources :: HasDeletion(deletions, s, ActiveDeletion)
  }

  predicate AnyMember(members: map<Id, Id>, sources: seq<Id>) {
    exists s | s in sources :: s in members
  }

  /** Releases the sessions one by one, in the order given. */
  function ReleaseEach(db: Db, release: Id, ids: seq<Id>, actor: Id, now: Time): Db
    requires forall s :: s in ids ==> s in db.sessions
    ensures ReleaseEach(db, release, ids, actor, now).sessions.Keys == db.sessions.Keys
  {
    if ids == [] then db
    else
      var last := |ids| - 1;
      var before := ReleaseEach(db, release, ids[..last], actor, now);
      Moved(before.(members := before.members[ids[last] := release]), ids[last], SessionState.Released, actor, now)
  }

  /** The order in which the session rows are locked: by identifier. */
  function LockOrder(sources: seq<Id>): (ids: seq<Id>)
    ensures forall s :: s in ids <==> s in sources
    ensures forall i, j :: 0 <= i < j < |ids| ==> ids[i] < ids[j]
  {
    Ascending(set s | s in sources)
  }

  /** `found` answers the lookup by name; the session rows are locked and released in identifier order. */
  function CommitRelease(db: Db, meta: ReleaseMeta, sources: seq<Id>, found: Option<Id>, actor: Id, now: Time): Outcome<Id> {
    if sources == [] || !NameLookup(db.releases, meta.project, meta.name, found) then Rollback(Invalid)
    else if found.Some? then
      if found.value != meta.id || db.releases[meta.id].configurationHash != meta.configurationHash
         || db.releases[meta.id].manifestHash != meta.manifestHash
      then Rollback(ReleaseConflict) else Commit(db, found.value)
    else if !Distinct(sources) || !AllAccepted(db.sessions, sources) then Rollback(ReleaseEligibility)
    else if AnyDeletion(db.deletions, sources) then Rollback(ReleaseEligibility)
    else if meta.id in db.releases || AnyMember(db.members, sources) then Rollback(Conflict)
    else
      var row := Release(meta.project, meta.name, meta.configurationHash, meta.manifestHash, sources, now, None);
      var released := ReleaseEach(db.(releases := db.releases[meta.id := row]), meta.id, LockOrder(sources), actor, now);
      Commit(Logged(released, actor, now, Noted("dataset_release.created", meta.id)), meta.id)
  }
}
