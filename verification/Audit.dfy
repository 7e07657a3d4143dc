/** Reading session states back out of the append-only audit table
    (services/api/internal/database/store.go, insertAudit and its callers). */
module Audit {
  import opened Common
  import opened Sessions

  /** The state a session is in after one more audit row. */
  function Advance(current: Option<SessionState>, entry: AuditEntry, s: Id): Option<SessionState> {
    match entry
    case Transitioned(x, _, to) => if x == s then Some(to) else current
    case ReworkAssigned(x, _) => if x == s then Some(Assigned) else current
    case ProcessingRecovered(x, _, to) => if x == s then Some(to) else current
    case SessionDeleted(x) => if x == s then Some(Deleted) else current
    case Noted(_, _) => current
  }

  /** The state the log says session s is in, None when it says nothing of s. */
  function Replay(log: seq<AuditEvent>, s: Id): Option<SessionState> {
    if log == [] then None else Advance(Replay(log[..|log| - 1], s), log[|log| - 1].entry, s)
  }

  /** An audit row is legal after a log when the state it starts from is the one replayed so far and its edge
      is a declared one. The edges outside the transition table are exactly the last three cases. */
  predicate Legal(log: seq<AuditEvent>, entry: AuditEntry) {
    match entry
    case Transitioned(s, from, to) =>
      Allowed(from, to) && Replay(log, s) == (if from == Created then None else Some(from))
    case ReworkAssigned(s, parent) => Replay(log, s) == None && Replay(log, parent).Some?
    case ProcessingRecovered(s, from, to) => from == Failed && to == Processing && Replay(log, s) == Some(from)
    case SessionDeleted(s) => Replay(log, s).Some? && Replay(log, s) != Some(Deleted)
    case Noted(_, _) => true
  }

  predicate AllLegal(log: seq<AuditEvent>) {
    log == [] || (AllLegal(log[..|log| - 1]) && Legal(log[..|log| - 1], log[|log| - 1].entry))
  }

  lemma Appended(log: seq<AuditEvent>, event: AuditEvent)
    ensures forall s :: Replay(log + [event], s) == Advance(Replay(log, s), event.entry, s)
    ensures AllLegal(log + [event]) <==> AllLegal(log) && Legal(log, event.entry)
  {
    var longer := log + [event];
    assert longer[..|longer| - 1] == log && longer[|longer| - 1] == event;
  }
}
