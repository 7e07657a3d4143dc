/** The control plane as one transition system: every Store method is an atomic step, taken in any order by
    API callers, workers and exporters, at any times. */
module ControlPlane {
  import opened Common
  import opened Sessions
  import opened Queues
  import opened Tables
  import opened PipelineSteps
  import opened ReviewSteps
  import opened ErasureSteps
  import opened RetentionSteps
  import opened ReleaseSteps

  /** What an exporter run remembers between listing its candidates and committing the release. */
  datatype Export = Export(project: Id, sessions: seq<Id>)

  datatype System = System(db: Db, exports: map<Id, Export>)

  datatype Action =
    | Pipeline(pipeline: PipelineAction)
    | Validation(validation: ValidationAction)
    | Reviewing(reviewing: ReviewAction)
    | Redaction(redaction: RedactionAction)
    | Erasure(erasure: ErasureAction)
    | Retention(retention: RetentionAction)
    | BeginExport(run: Id, project: Id, wanted: set<Id>, rows: seq<Candidate>)
    | FinishExport(run: Id, meta: ReleaseMeta, found: Option<Id>)

  /** One call: who makes it, when, and what it asks. */
  datatype Call = Call(actor: Id, now: Time, action: Action)

  ghost function Began(sys: System, e: Id, project: Id, wanted: set<Id>, rows: seq<Candidate>): System {
    if e !in sys.exports && Listing(sys.db, project, wanted, rows) && ListingAccepted(wanted, rows)
    then sys.(exports := sys.exports[e := Export(project, SessionsOf(rows))]) else sys
  }

  /** The exporter commits the sessions it listed, in the project it listed them for. */
  function Finished(sys: System, e: Id, meta: ReleaseMeta, found: Option<Id>, me: Id, now: Time): Db {
    if e in sys.exports && meta.project == sys.exports[e].project
    then CommitRelease(sys.db, meta, sys.exports[e].sessions, found, me, now).After(sys.db) else sys.db
  }

  ghost function Step(sys: System, call: Call): System {
    var (db, me, now) := (sys.db, call.actor, call.now);
    match call.action
    case Pipeline(a) => sys.(db := PipelineStep(db, me, now, a))
    case Validation(a) => sys.(db := ValidationStep(db, me, now, a))
    case Reviewing(a) => sys.(db := ReviewStep(db, me, now, a))
    case Redaction(a) => sys.(db := RedactionStep(db, me, now, a))
    case Erasure(a) => sys.(db := ErasureStep(db, me, now, a))
    case Retention(a) => sys.(db := RetentionStep(db, me, now, a))
    case BeginExport(e, project, wanted, rows) => Began(sys, e, project, wanted, rows)
    case FinishExport(e, meta, found) => sys.(db := Finished(sys, e, meta, found, me, now))
  }

  ghost function Run(sys: System, calls: seq<Call>): System {
    if calls == [] then sys else Step(Run(sys, calls[..|calls| - 1]), calls[|calls| - 1])
  }

  /** A database that holds only set-up rows. */
  predicate Initial(sys: System) {
    && sys.exports == map[]
    && sys.db.assignments == map[] && sys.db.sessions == map[] && sys.db.acceptances == map[] && sys.db.artifacts == map[]
    && sys.db.jobs == map[] && sys.db.results == map[] && sys.db.claims == map[] && sys.db.reviews == map[]
    && sys.db.plans == map[] && sys.db.redactions == map[] && sys.db.holds == map[] && sys.db.deletions == map[]
    && sys.db.policies == map[] && sys.db.purges == map[] && sys.db.releases == map[] && sys.db.members == map[]
    && sys.db.audit == []
  }
}
