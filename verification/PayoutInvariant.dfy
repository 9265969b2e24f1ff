/**
 * What every run of worker, gateway and server keeps about one withdrawal's money.
 */
module PayoutInvariant {
  import opened Gateway
  import opened Options
  import opened PayoutSystem
  import opened WorkerModel

  /** Every /pay written for this withdrawal is known to have moved nothing. */
  ghost predicate Clear(s: State, id: Id) {
    forall i | IsPayFor(s, i, id) && i < |s.fates| :: s.fates[i].NotMoved?
  }

  ghost predicate ClearRef(s: State, ref: JobRef) {
    ref.Withdrawal? ==> Clear(s, ref.id)
  }

  ghost predicate ClearBut(s: State, id: Id, sent: int) {
    forall i | IsPayFor(s, i, id) && i < |s.fates| && i != sent :: s.fates[i].NotMoved?
  }

  function LeaseOf(job: Claimed): Option<(Id, EventId)> {
    match job.ref
    case Withdrawal(id) => Some((id, job.token))
    case OtherMoney => None
  }

  /** The withdrawal and the lease the worker is working on, or may still pick up. */
  ghost function LiveLease(s: State): Option<(Id, EventId)> {
    match s.worker.desk.phase
    case Claiming(event, _) =>
      if event in s.tables.claims && s.tables.claims[event].ForPayout?
      then Some((s.tables.claims[event].id, event)) else None
    case Gap(job, _, _) => LeaseOf(job)
    case InFlight(job, _, _) => LeaseOf(job)
    case _ => None
  }

  ghost predicate Live(s: State, id: Id) {
    LiveLease(s).Some? && LiveLease(s).value.0 == id
  }

  /** A result that says no money moved: the ones the gateway sends again or refunds on. */
  predicate SaysNotMoved(outcome: Outcome) {
    outcome.Failed? && (outcome.code in {NotSent, InsufficientFunds} || outcome.retryable)
  }

  predicate Dead(job: Job) {
    job.status in {DeadLetter, Done, Retired}
  }

  /** Refunded by the system itself, or by an operator rejecting it before it was paid. */
  predicate Returned(row: Row) {
    exists code :: code in row.refunds && code != ConfirmedNotPaid
  }

  /** A job the worker knows of: its claim was answered, and a withdrawal's job is in the tables. */
  predicate Known(g: Tables, ref: JobRef, token: EventId) {
    token in g.claims && (ref.Withdrawal? ==> ref.id in g.jobs)
  }

  /** How the pieces refer to each other. */
  ghost predicate Shape(s: State) {
    var g, w := s.tables, s.worker;
    && |s.fates| == |w.wire.log|
    && (forall id | id in g.jobs :: id in g.rows)
    && (forall event | event in g.claims :: event in w.wire.claimsSent)
    && (forall event | event in g.claims && g.claims[event].ForPayout? :: g.claims[event].id in g.jobs)
    && (forall event | event in w.wire.claimsSent :: event < w.wire.nextId)
    && (forall k | 0 <= k < |w.wire.posted| :: Known(g, w.wire.posted[k].job, w.wire.posted[k].token))
    && (forall i | IsPay(s, i) :: Known(g, w.wire.log[i].command.job.ref, w.wire.log[i].command.job.token))
    && (w.desk.pending.Some? ==> IsPay(s, w.desk.pending.value.sent))
    && (w.desk.phase.Claiming? ==> w.desk.phase.event < w.wire.nextId)
    && (w.desk.phase.Gap? ==> Known(g, w.desk.phase.job.ref, w.desk.phase.job.token))
    && (w.desk.phase.InFlight? ==>
          && Known(g, w.desk.phase.job.ref, w.desk.phase.job.token)
          && IsPay(s, w.desk.phase.sent) && w.wire.log[w.desk.phase.sent].command.job == w.desk.phase.job
          && (w.desk.pending.Some? ==>
               w.desk.pending.value.sent == w.desk.phase.sent
               && w.desk.pending.value.timer == w.desk.phase.timer))
  }

  function JobAt(g: Tables, id: Id): Option<Job> {
    if id in g.jobs then Some(g.jobs[id]) else None
  }

  /**
   * A job that can be sent again has moved nothing and nobody works on it; a job somebody works on has
   * that lease; a report of "not moved" the gateway would still act on is true.
   */
  ghost predicate JobOk(s: State, id: Id, job: Job) {
    && (job.status == Queued ==> Clear(s, id) && !Live(s, id))
    && (Live(s, id) && job.status == Leased ==> job.token == Some(LiveLease(s).value.1))
    && (forall k | 0 <= k < |s.worker.wire.posted| && s.worker.wire.posted[k].job == Withdrawal(id) ::
          SaysNotMoved(s.worker.wire.posted[k].outcome) && job.status == Leased
            && job.token == Some(s.worker.wire.posted[k].token)
          ==> Clear(s, id))
  }

  /** Under the lease being worked on nothing was reported yet, and every earlier command moved nothing. */
  ghost predicate LeaseOk(s: State, id: Id, token: EventId) {
    && (forall k | 0 <= k < |s.worker.wire.posted| :: s.worker.wire.posted[k].token != token)
    && ClearBut(s, id, if s.worker.desk.phase.InFlight? then s.worker.desk.phase.sent else -1)
  }

  ghost predicate Leases(s: State) {
    && (forall id | id in s.tables.jobs :: JobOk(s, id, s.tables.jobs[id]))
    && (LiveLease(s).Some? ==> LeaseOk(s, LiveLease(s).value.0, LiveLease(s).value.1))
  }

  /** No lease can be given out for it: dead, or held by an operator. */
  predicate Parked(job: Option<Job>) {
    job.Some? ==>
      || Dead(job.value)
      || (job.value.status == Queued && job.value.available == Held && job.value.lastError == None)
  }

  /** Nothing moved, nobody works on it, and no lease can be given out for it. */
  ghost predicate OutOfReach(s: State, id: Id, job: Option<Job>) {
    Clear(s, id) && !Live(s, id) && Parked(job)
  }

  /**
   * Withdrawals that were returned, held, or wait on the vault are out of the worker's reach; no new lease is
   * given out for one under review or settled.
   */
  ghost predicate RowOk(s: State, id: Id, row: Row, job: Option<Job>, waits: bool) {
    && (Returned(row) || waits || row.status in {PendingApproval, AwaitingVault} ==> OutOfReach(s, id, job))
    && (waits ==> !row.Open() && row.status != PendingApproval)
    && (row.status == ManualReview || row.Settled() ==> Parked(job))
    && (row.status == ManualReview && row.error == Some(Unconfirmed) ==> !Live(s, id))
    && |row.refunds| <= 1
    && (|row.refunds| == 1 <==> row.status in {Refunded, Rejected})
    && (row.paidBy.Some? <==> row.status == Paid)
    && (row.paidBy == Some(FromBalance) ==> HasMoved(s, id))
  }

  ghost predicate Rows(s: State) {
    && (forall id | id in s.tables.rows ::
          RowOk(s, id, s.tables.rows[id], JobAt(s.tables, id), Waits(s.tables, id)))
    && (forall id | id in s.tables.releases :: id in s.tables.rows)
  }

  /** Of the commands written for one withdrawal, only the last can have moved money. */
  ghost predicate Once(s: State) {
    && (forall id, i, j | IsPayFor(s, i, id) && IsPayFor(s, j, id) && i < j < |s.fates| :: s.fates[i].NotMoved?)
    && (s.worker.desk.payoutCooldownSeen && s.worker.desk.phase.InFlight? && s.worker.desk.phase.sent < |s.fates| ==>
          s.fates[s.worker.desk.phase.sent].NotMoved?)
  }

  ghost predicate Safe(s: State) {
    Shape(s) && Leases(s) && Rows(s) && Once(s)
  }

  lemma SameMoney(s: State, t: State)
    requires t.worker.wire.log == s.worker.wire.log && t.fates == s.fates
    ensures forall id :: Clear(s, id) <==> Clear(t, id)
    ensures forall id, sent :: ClearBut(s, id, sent) <==> ClearBut(t, id, sent)
    ensures forall i :: IsPay(s, i) <==> IsPay(t, i)
    ensures forall i, id :: IsPayFor(s, i, id) <==> IsPayFor(t, i, id)
    ensures forall id :: HasMoved(s, id) <==> HasMoved(t, id)
  {
    assert forall i, id :: IsPayFor(s, i, id) <==> IsPayFor(t, i, id);
  }
}
