/** The lease that every work queue row carries, and the row edits the four queues share:
    validation (services/api/internal/database/pipeline.go), redaction (redaction.go),
    deletion (erasure.go) and retention purge (retention_expiry.go). */
module Queues {
  import opened Common

  datatype Status = Queued | Leased | Completed | Blocked | Cancelled | DeadLetter

  datatype Lease = Lease(
    status: Status, attempt: int, manualRequeues: int, availableAt: Time,
    leasedBy: Option<Id>, expiresAt: Option<Time>)

  function Fresh(now: Time): Lease {
    Lease(Queued, 0, 0, now, None, None)
  }

  predicate Claimable(l: Lease, now: Time) {
    || (l.status == Queued && l.availableAt <= now)
    || (l.status == Leased && l.expiresAt.Some? && l.expiresAt.value <= now)
  }

  predicate OwnedBy(l: Lease, worker: Id) {
    l.status == Leased && l.leasedBy == Some(worker)
  }

  function Claimed(l: Lease, worker: Id, duration: Time, now: Time): Lease {
    l.(status := Leased, attempt := l.attempt + 1, leasedBy := Some(worker), expiresAt := Some(now + duration))
  }

  /** Back to the queue, available again after attempt squared seconds. */
  function Requeued(l: Lease, now: Time): Lease {
    l.(status := Queued, availableAt := now + l.attempt * l.attempt * SECOND, leasedBy := None, expiresAt := None)
  }

  /** Any status in which nobody holds the row. */
  function Parked(l: Lease, status: Status): Lease {
    l.(status := status, leasedBy := None, expiresAt := None)
  }

  function Retried(l: Lease, now: Time): Lease {
    l.(status := Queued, attempt := 0, manualRequeues := l.manualRequeues + 1, availableAt := now,
       leasedBy := None, expiresAt := None)
  }
}
