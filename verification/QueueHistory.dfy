/** The four queues over whole runs: who may finish a job, which statuses are final, and how often a job is retried. */
module QueueHistory {
  import opened Common
  import opened Sessions
  import opened Queues
  import opened Tables
  import opened ControlPlane
  import opened Evolution
  import opened Runs

  datatype Queue = ValidationQueue | RedactionQueue | DeletionQueue | PurgeQueue

  function RowOf(db: Db, q: Queue, id: Id): Option<Lease> {
    match q
    case ValidationQueue => if id in db.jobs then Some(db.jobs[id].lease) else None
    case RedactionQueue => if id in db.redactions then Some(db.redactions[id].lease) else None
    case DeletionQueue => if id in db.deletions then Some(db.deletions[id].lease) else None
    case PurgeQueue => if id in db.purges then Some(db.purges[id].lease) else None
  }

  ghost function RowAfter(sys: System, calls: seq<Call>, q: Queue, id: Id): Option<Lease> {
    RowOf(Run(sys, calls).db, q, id)
  }

  /** The queues whose rows no hold blocks and no claim turns away. */
  predicate WorkQueue(q: Queue) {
    q.ValidationQueue? || q.RedactionQueue?
  }

  /** A row enters fresh, follows the automaton, and leaves the validation and redaction queues only. */
  predicate RowStep(before: Option<Lease>, after: Option<Lease>, q: Queue, c: Caller) {
    match (before, after)
    case (Some(l), Some(m)) => if WorkQueue(q) then WorkEdge(l, m, c) else LeaseEdge(l, m, c)
    case (None, Some(m)) => m == Fresh(c.now)
    case (Some(_), None) => WorkQueue(q)
    case (None, None) => true
  }

  lemma EvolvesRow(before: Db, after: Db, q: Queue, id: Id, c: Caller)
    requires Evolves(before, after, c)
    ensures RowStep(RowOf(before, q, id), RowOf(after, q, id), q, c)
  {
    match q
    case ValidationQueue =>
    case RedactionQueue =>
      assert id in before.redactions && id in after.redactions ==>
          RedactionEdge(before.redactions[id], after.redactions[id], before.sessions, c);
    case DeletionQueue =>
    case PurgeQueue =>
  }

  lemma StepRow(sys: System, calls: seq<Call>, q: Queue, id: Id)
    requires calls != []
    ensures RowStep(RowAfter(sys, calls[..|calls| - 1], q, id), RowAfter(sys, calls, q, id), q, CallerOf(calls[|calls| - 1]))
  {
    var before := Run(sys, calls[..|calls| - 1]);
    StepEvolves(before, calls[|calls| - 1]);
    EvolvesRow(before.db, Run(sys, calls).db, q, id, CallerOf(calls[|calls| - 1]));
  }

  // The history of one row: what it was before the first call and after each.

  ghost function Rows(sys: System, calls: seq<Call>, q: Queue, id: Id): (rows: seq<Option<Lease>>)
    ensures |rows| == |calls| + 1 && rows[|calls|] == RowAfter(sys, calls, q, id)
  {
    if calls == [] then [RowAfter(sys, [], q, id)]
    else Rows(sys, calls[..|calls| - 1], q, id) + [RowAfter(sys, calls, q, id)]
  }

  function Callers(calls: seq<Call>): (callers: seq<Caller>)
    ensures |callers| == |calls| && forall k | 0 <= k < |calls| :: callers[k] == CallerOf(calls[k])
  {
    seq(|calls|, k requires 0 <= k < |calls| => CallerOf(calls[k]))
  }

  predicate History(rows: seq<Option<Lease>>, callers: seq<Caller>, q: Queue)
    decreases |callers|
  {
    var n := |callers|;
    |rows| == n + 1 && (n == 0 || (RowStep(rows[n - 1], rows[n], q, callers[n - 1]) && History(rows[..n], callers[..n - 1], q)))
  }

  lemma HistoryExtended(rows: seq<Option<Lease>>, callers: seq<Caller>, row: Option<Lease>, c: Caller, q: Queue)
    requires History(rows, callers, q) && RowStep(rows[|callers|], row, q, c)
    ensures History(rows + [row], callers + [c], q)
  {
    assert (rows + [row])[..|rows|] == rows && (callers + [c])[..|callers|] == callers;
  }

  lemma RowsGrow(sys: System, calls: seq<Call>, q: Queue, id: Id)
    requires calls != []
    ensures var prefix := calls[..|calls| - 1];
            && Rows(sys, calls, q, id) == Rows(sys, prefix, q, id) + [RowAfter(sys, calls, q, id)]
            && Callers(calls) == Callers(prefix) + [CallerOf(calls[|calls| - 1])]
  {
  }

  lemma NextRow(sys: System, calls: seq<Call>, q: Queue, id: Id) returns (row: Option<Lease>, c: Caller)
    requires calls != []
    ensures var rows := Rows(sys, calls[..|calls| - 1], q, id);
            && RowStep(rows[|calls| - 1], row, q, c)
            && Rows(sys, calls, q, id) == rows + [row] && Callers(calls) == Callers(calls[..|calls| - 1]) + [c]
  {
    row, c := RowAfter(sys, calls, q, id), CallerOf(calls[|calls| - 1]);
    StepRow(sys, calls, q, id);
    RowsGrow(sys, calls, q, id);
  }

  lemma {:induction false} RowsAreHistory(sys: System, calls: seq<Call>, q: Queue, id: Id)
    ensures History(Rows(sys, calls, q, id), Callers(calls), q)
  {
    if calls != [] {
      var prefix := calls[..|calls| - 1];
      RowsAreHistory(sys, prefix, q, id);
      var row, c := NextRow(sys, calls, q, id);
      HistoryExtended(Rows(sys, prefix, q, id), Callers(prefix), row, c, q);
    }
  }

  lemma {:induction false} RowsAt(sys: System, calls: seq<Call>, q: Queue, id: Id, k: nat)
    requires k <= |calls|
    ensures Rows(sys, calls, q, id)[k] == RowAfter(sys, calls[..k], q, id)
  {
    if k == |calls| {
      assert calls[..k] == calls;
    } else {
      RowsAt(sys, calls[..|calls| - 1], q, id, k);
      assert calls[..|calls| - 1][..k] == calls[..k];
    }
  }

  lemma NoRowAtFirst(start: System, calls: seq<Call>, q: Queue, id: Id)
    requires Initial(start)
    ensures Rows(start, calls, q, id)[0] == None
  {
    RowsAt(start, calls, q, id, 0);
  }

  // Who may finish a job.

  /** The last caller that took or retook the lease. */
  function LastClaimant(rows: seq<Option<Lease>>, callers: seq<Caller>): Option<Id>
    requires |rows| == |callers| + 1
    decreases |callers|
  {
    var n := |callers|;
    if n == 0 then None
    else if rows[n].Some? && rows[n].value.status == Leased && rows[n - 1] != rows[n] then Some(callers[n - 1].who)
    else LastClaimant(rows[..n], callers[..n - 1])
  }

  lemma {:induction false} HeldByLastClaimant(rows: seq<Option<Lease>>, callers: seq<Caller>, q: Queue)
    requires History(rows, callers, q) && rows[0] == None
    requires rows[|callers|].Some? && rows[|callers|].value.status == Leased
    ensures rows[|callers|].value.leasedBy == LastClaimant(rows, callers) && LastClaimant(rows, callers).Some?
    decreases |callers|
  {
    var n := |callers|;
    if rows[n - 1] == rows[n] {
      HeldByLastClaimant(rows[..n], callers[..n - 1], q);
    }
  }

  lemma LeasedByLastClaimant(start: System, calls: seq<Call>, q: Queue, id: Id)
    requires Initial(start)
    requires RowAfter(start, calls, q, id).Some? && RowAfter(start, calls, q, id).value.status == Leased
    ensures var last := LastClaimant(Rows(start, calls, q, id), Callers(calls));
            last.Some? && RowAfter(start, calls, q, id).value.leasedBy == last
  {
    RowsAreHistory(start, calls, q, id);
    NoRowAtFirst(start, calls, q, id);
    HeldByLastClaimant(Rows(start, calls, q, id), Callers(calls), q);
  }

  /** Another caller can change a leased row only by claiming it after the lease has run out. */
  lemma LeasedStep(l: Lease, m: Lease, q: Queue, c: Caller)
    requires RowStep(Some(l), Some(m), q, c) && l.status == Leased && m != l
    ensures Claimable(l, c.now) || l.leasedBy == Some(c.who)
    ensures m.status in {Completed, Queued} || (m.status == DeadLetter && WorkQueue(q)) ==> l.leasedBy == Some(c.who)
  {
  }

  /** While a lease runs, only the most recent claimant changes the row. A row that is completed, put back in the queue, or
      dead-lettered in a queue that turns no claim away, was finished by that claimant even if the lease had run out. */
  lemma OnlyLastClaimantFinishes(start: System, calls: seq<Call>, call: Call, q: Queue, id: Id)
    requires Initial(start) && RowAfter(start, calls, q, id).Some? && RowAfter(start, calls, q, id).value.status == Leased
    requires RowAfter(start, calls + [call], q, id).Some? && RowAfter(start, calls + [call], q, id) != RowAfter(start, calls, q, id)
    ensures var (l, m) := (RowAfter(start, calls, q, id).value, RowAfter(start, calls + [call], q, id).value);
            || LastClaimant(Rows(start, calls, q, id), Callers(calls)) == Some(call.actor)
            || (Claimable(l, call.now) && m.status !in {Completed, Queued} && (m.status == DeadLetter ==> !WorkQueue(q)))
  {
    assert (calls + [call])[..|calls|] == calls;
    StepRow(start, calls + [call], q, id);
    LeasedByLastClaimant(start, calls, q, id);
    LeasedStep(RowAfter(start, calls, q, id).value, RowAfter(start, calls + [call], q, id).value, q, CallerOf(call));
  }

  // Statuses that are final.

  predicate Final(status: Status) {
    status == Completed || status == Status.Cancelled
  }

  lemma {:induction false} FinalStays(rows: seq<Option<Lease>>, callers: seq<Caller>, q: Queue)
    requires History(rows, callers, q) && (forall k | 0 <= k < |rows| :: rows[k].Some?) && Final(rows[0].value.status)
    ensures rows[|callers|] == rows[0]
    decreases |callers|
  {
    var n := |callers|;
    if n > 0 {
      FinalStays(rows[..n], callers[..n - 1], q);
    }
  }

  /** A completed or cancelled row never changes again while it exists. */
  lemma FinalRowsStay(sys: System, calls: seq<Call>, q: Queue, id: Id)
    requires RowOf(sys.db, q, id).Some? && Final(RowOf(sys.db, q, id).value.status)
    requires forall k | 0 <= k <= |calls| :: RowAfter(sys, calls[..k], q, id).Some?
    ensures RowAfter(sys, calls, q, id) == RowOf(sys.db, q, id)
  {
    var rows := Rows(sys, calls, q, id);
    RowsAreHistory(sys, calls, q, id);
    forall k | 0 <= k < |rows| ensures rows[k] == RowAfter(sys, calls[..k], q, id) {
      RowsAt(sys, calls, q, id, k);
    }
    assert rows[0] == RowAfter(sys, calls[..0], q, id) == RowOf(sys.db, q, id);
    FinalStays(rows, Callers(calls), q);
  }

  lemma {:induction false} RowsStay(rows: seq<Option<Lease>>, callers: seq<Caller>, q: Queue)
    requires History(rows, callers, q) && !WorkQueue(q) && rows[0].Some?
    ensures rows[|callers|].Some?
    decreases |callers|
  {
    var n := |callers|;
    if n > 0 {
      RowsStay(rows[..n], callers[..n - 1], q);
    }
  }

  /** Deletion and purge rows are never removed. */
  lemma DeletingRowsStay(sys: System, calls: seq<Call>, q: Queue, id: Id)
    requires !WorkQueue(q) && RowOf(sys.db, q, id).Some?
    ensures RowAfter(sys, calls, q, id).Some?
  {
    RowsAreHistory(sys, calls, q, id);
    RowsAt(sys, calls, q, id, 0);
    RowsStay(Rows(sys, calls, q, id), Callers(calls), q);
  }

  // How often a job is tried.

  /** What became of the leases of a row since it entered or was last retried by hand: how many there were, how many
      went back to the queue after a failed attempt, how many ran out and were taken over or blocked by a hold, and how
      many closed the row. */
  datatype Tally = Tally(claims: nat, requeues: nat, lost: nat, closed: nat)

  const NOTHING := Tally(0, 0, 0, 0)

  function Counted(t: Tally, l: Lease, m: Lease): Tally {
    if l.status == DeadLetter && m.status == Queued then NOTHING
    else
      t.(claims := t.claims + if m.status == Leased && m != l then 1 else 0,
         requeues := t.requeues + if l.status == Leased && m.status == Queued then 1 else 0,
         lost := t.lost + if l.status == Leased && m != l && (m.status == Leased || m.status == Blocked) then 1 else 0,
         closed := t.closed + if l.status == Leased && m.status in {Completed, Status.Cancelled, DeadLetter} then 1 else 0)
  }

  function TallyOf(rows: seq<Option<Lease>>): Tally {
    var n := |rows| - 1;
    if n < 1 || rows[n].None? || rows[n - 1].None? then NOTHING
    else Counted(TallyOf(rows[..n]), rows[n - 1].value, rows[n].value)
  }

  /** Every lease counts one attempt, and went back, was lost, closed the row or still runs. */
  predicate Accounted(t: Tally, l: Lease) {
    && l.attempt == t.claims
    && t.claims == t.requeues + t.lost + t.closed + (if l.status == Leased then 1 else 0)
    && (l.status in {Queued, Leased, Blocked} ==> t.closed == 0)
  }

  lemma {:induction false} AttemptsCounted(rows: seq<Option<Lease>>, callers: seq<Caller>, q: Queue)
    requires History(rows, callers, q) && rows[0] == None && rows[|callers|].Some?
    ensures Accounted(TallyOf(rows), rows[|callers|].value)
    decreases |callers|
  {
    var n := |callers|;
    if rows[n - 1].Some? {
      AttemptsCounted(rows[..n], callers[..n - 1], q);
    }
  }

  /** The attempts of a row are its leases since it entered or was last retried, those taken over after running out
      included. */
  lemma AttemptsAccounted(start: System, calls: seq<Call>, q: Queue, id: Id)
    requires Initial(start) && RowAfter(start, calls, q, id).Some?
    ensures Accounted(TallyOf(Rows(start, calls, q, id)), RowAfter(start, calls, q, id).value)
  {
    RowsAreHistory(start, calls, q, id);
    NoRowAtFirst(start, calls, q, id);
    AttemptsCounted(Rows(start, calls, q, id), Callers(calls), q);
  }

  lemma {:induction false} RequeuesCounted(rows: seq<Option<Lease>>, callers: seq<Caller>, q: Queue, n: int)
    requires History(rows, callers, q) && rows[0] == None && 1 <= n
    requires forall k | 0 <= k < |callers| :: callers[k].maxAttempts <= n
    ensures TallyOf(rows).requeues <= n - 1
    decreases |callers|
  {
    var last := |callers|;
    if last > 0 && rows[last].Some? && rows[last - 1].Some? {
      RequeuesCounted(rows[..last], callers[..last - 1], q, n);
      AttemptsCounted(rows[..last], callers[..last - 1], q);
    }
  }

  /** With an attempt limit of n, a row is requeued at most n - 1 times between manual retries. */
  lemma RequeuesBounded(start: System, calls: seq<Call>, q: Queue, id: Id, n: int)
    requires Initial(start) && 1 <= n
    requires forall k | 0 <= k < |calls| :: MaxAttempts(calls[k].action) <= n
    ensures TallyOf(Rows(start, calls, q, id)).requeues <= n - 1
  {
    RowsAreHistory(start, calls, q, id);
    NoRowAtFirst(start, calls, q, id);
    RequeuesCounted(Rows(start, calls, q, id), Callers(calls), q, n);
  }

  /** A leased row is past an attempt limit of n exactly when the requeues and the lost leases before this one make n,
      and never without a lost lease. */
  lemma AttemptsPastLimit(start: System, calls: seq<Call>, q: Queue, id: Id, n: int)
    requires Initial(start) && 1 <= n && RowAfter(start, calls, q, id).Some? && RowAfter(start, calls, q, id).value.status == Leased
    requires forall k | 0 <= k < |calls| :: MaxAttempts(calls[k].action) <= n
    ensures var (t, l) := (TallyOf(Rows(start, calls, q, id)), RowAfter(start, calls, q, id).value);
            (n < l.attempt <==> n <= t.requeues + t.lost) && (n < l.attempt ==> 1 <= t.lost)
  {
    AttemptsAccounted(start, calls, q, id);
    RequeuesBounded(start, calls, q, id, n);
  }
}
