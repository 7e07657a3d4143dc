/** The session aggregate: its states, the transition table and the guarded transition
    (services/api/internal/domain/session.go). */
module Sessions {
  import opened Common

  datatype SessionState =
    | Created | Assigned | Ready | Recording | Finalizing | Uploading | Submitted | Processing
    | ReadyForReview | Accepted | Released | Failed | Rejected | ReworkRequired | Cancelled | Deleted

  predicate Allowed(from: SessionState, to: SessionState) {
    match from
    case Created => to == Assigned || to == Cancelled
    case Assigned => to == Ready || to == Cancelled
    case Ready => to == Recording || to == Cancelled
    case Recording => to == Finalizing || to == Failed || to == Cancelled
    case Finalizing => to == Uploading || to == Failed
    case Uploading => to == Submitted || to == Failed
    case Submitted => to == Processing || to == Failed
    case Processing => to == ReadyForReview || to == Failed
    case ReadyForReview => to == Accepted || to == Rejected || to == ReworkRequired
    case ReworkRequired => to == Ready || to == Cancelled
    case Accepted => to == SessionState.Released
    case _ => false
  }

  /** What one audit row says about a session. Rows that do not concern a session's state
      keep their action name. */
  datatype AuditEntry =
    | Transitioned(session: Id, from: SessionState, to: SessionState)
    | ReworkAssigned(session: Id, parent: Id)
    | ProcessingRecovered(session: Id, from: SessionState, to: SessionState)
    | SessionDeleted(session: Id)
    | Noted(action: string, subject: Id)

  datatype AuditEvent = AuditEvent(actor: Id, at: Time, entry: AuditEntry)

  /** The in-memory session a transaction loads, transitions and writes back. */
  class Session {
    const id: Id
    var state: SessionState
    var updatedAt: Time
    var auditEvents: seq<AuditEvent>

    constructor (id: Id, state: SessionState, updatedAt: Time)
      ensures this.id == id && this.state == state && this.updatedAt == updatedAt && auditEvents == []
    {
      this.id, this.state, this.updatedAt, this.auditEvents := id, state, updatedAt, [];
    }

    method Transition(to: SessionState, actor: Id, now: Time) returns (ok: bool)
      modifies this
      ensures ok <==> Allowed(old(state), to)
      ensures ok ==> state == to && updatedAt == now
      ensures ok ==> auditEvents == old(auditEvents) + [AuditEvent(actor, now, Transitioned(id, old(state), to))]
      ensures !ok ==> state == old(state) && updatedAt == old(updatedAt) && auditEvents == old(auditEvents)
    {
      if !Allowed(state, to) {
        return false;
      }
      var from := state;
      state := to;
      updatedAt := now;
      auditEvents := auditEvents + [AuditEvent(actor, now, Transitioned(id, from, to))];
      return true;
    }
  }
}
