/**
 * The gateway's side of a player's cash payout: the withdrawal row, its one `cash_payout` job, and
 * the SQL transactions that move them. A transaction is atomic, so each is a function of the tables.
 */
module Gateway {
  import opened BalanceEvidence
  import opened Options

  /** A withdrawal and its job share one identity: (kind, reference_id) is unique in bot_jobs. */
  type Id = nat
  type EventId = nat
  type Name = string

  datatype Code =
    | NotSent | InsufficientFunds | Unconfirmed | AmountMismatch | PayoutFailed
    | LeaseExpired | InvalidLease | Quarantined
    | BalanceShowsNotPaid | RejectedByAdmin | ConfirmedNotPaid

  /** What a claimed job pays for: a player's withdrawal, or money that moves for the platform itself. */
  datatype JobRef = Withdrawal(id: Id) | OtherMoney

  /** What a claim was answered with. */
  datatype Given = Nothing | ForPayout(id: Id) | ForTransfer(payee: Name, amount: string) | OtherWork

  datatype Outcome = Completed | Failed(retryable: bool, code: Code)

  /** A signed job_result event. The lease token is derived from the claim's event, so that event names it. */
  datatype Result = Result(event: EventId, job: JobRef, token: EventId, outcome: Outcome)

  datatype JobStatus = Queued | Leased | DeadLetter | Done | Retired

  /** A held job is parked a century ahead, where the claim query never reaches it. */
  datatype Availability = At(time: int) | Held

  datatype Job = Job(
    payee: Name, amount: string,
    status: JobStatus, attempts: nat, token: Option<EventId>, leaseUntil: int,
    available: Availability, lastError: Option<Code>)

  datatype RowStatus = PendingApproval | AwaitingVault | InQueue | Processing | Paid | ManualReview | Refunded | Rejected

  datatype Payer = FromReceipt | FromBalance | FromOperator

  /** A withdrawal. `refunds` are its cash_withdrawal_refund entries in the player's wallet, by reason. */
  datatype Row = Row(status: RowStatus, error: Option<Code>, refunds: seq<Code>, paidBy: Option<Payer>) {
    predicate Open() {
      status in {InQueue, Processing}
    }

    predicate Settled() {
      status in {Paid, Refunded, Rejected}
    }
  }

  /** The vault's transfer that funds a withdrawal the teller is short for. */
  datatype Release = Outstanding | GivenUp | Landed

  datatype Tables = Tables(
    jobs: map<Id, Job>,
    rows: map<Id, Row>,
    releases: map<Id, Release>,
    claims: map<EventId, Given>,
    journal: set<EventId>)

  const MAX_ATTEMPTS := 5
  const LEASE_MS := 120_000
  const FUNDS_RETRY_MS := 300_000

  function NewJob(payee: Name, amount: string, now: int): Job {
    Job(payee, amount, Queued, 0, None, 0, At(now), None)
  }

  // The withdrawal before the bot has it: requested, held, approved, rejected.

  /** A payout is queued; one that was held is let go, and any other job of it stays as it is. */
  function QueuePayout(g: Tables, id: Id, payee: Name, amount: string, at: int): Tables {
    g.(jobs := if id !in g.jobs then g.jobs[id := NewJob(payee, amount, at)]
               else if g.jobs[id].status == Queued && g.jobs[id].available == Held
               then g.jobs[id := g.jobs[id].(available := At(at))]
               else g.jobs)
  }

  /** queueWithdrawalJob: paid by the teller, or by the teller once the vault has made up what it is short. */
  function Route(g: Tables, id: Id, payee: Name, amount: string, short: bool, now: int): Tables
    requires id in g.rows
  {
    if short then
      g.(releases := if id in g.releases then g.releases else g.releases[id := Outstanding],
         rows := g.rows[id := g.rows[id].(status := AwaitingVault)])
    else QueuePayout(g, id, payee, amount, now)
  }

  function RequestWithdrawal(
      g: Tables, id: Id, payee: Name, amount: string, approved: bool, short: bool, now: int): Tables
  {
    if id in g.rows || id in g.jobs then g
    else if approved then Route(g.(rows := g.rows[id := Row(InQueue, None, [], None)]), id, payee, amount, short, now)
    else g.(rows := g.rows[id := Row(PendingApproval, None, [], None)])
  }

  /**
   * Pulls back a payout the bot has not claimed, unless the vault has funded it. Its last error goes, so
   * nothing wakes it either.
   */
  function HoldWithdrawal(g: Tables, id: Id): Tables {
    if id !in g.rows || g.rows[id].status != InQueue || id in g.releases || id !in g.jobs || g.jobs[id].status != Queued
    then g
    else
      g.(jobs := g.jobs[id := g.jobs[id].(available := Held, lastError := None)],
         rows := g.rows[id := g.rows[id].(status := PendingApproval)])
  }

  function ApproveWithdrawal(g: Tables, id: Id, payee: Name, amount: string, short: bool, now: int): Tables {
    if id !in g.rows || g.rows[id].status != PendingApproval then g
    else
      Route(g.(rows := g.rows[id := g.rows[id].(status := InQueue, error := None)]), id, payee, amount, short, now)
  }

  // The vault's transfer.

  predicate Waits(g: Tables, id: Id) {
    id in g.releases && g.releases[id] != Landed
  }

  /** The errors a withdrawal shows an operator while its transfer looks lost. */
  predicate LooksLost(row: Row) {
    row.status == ManualReview
    && row.error in {Some(Unconfirmed), Some(PayoutFailed), Some(NotSent), Some(LeaseExpired), Some(InsufficientFunds)}
  }

  /**
   * The money reached the teller, so the player's payout is queued. When a receipt says so after the fact,
   * a withdrawal that was put before an operator for it comes back first.
   */
  function LandRelease(g: Tables, id: Id, payee: Name, amount: string, byReceipt: bool, at: int): Tables {
    if id !in g.rows || !Waits(g, id) then g
    else
      var landed := g.(releases := g.releases[id := Landed]);
      if g.rows[id].status == AwaitingVault || (byReceipt && LooksLost(g.rows[id])) then
        QueuePayout(landed.(rows := g.rows[id := g.rows[id].(status := InQueue, error := None)]), id, payee, amount, at)
      else landed
  }

  /** No further attempt is made. An operator is shown it, unless the vault was quarantined under it. */
  function GiveUpRelease(g: Tables, id: Id, code: Code, shown: bool): Tables {
    if id !in g.rows || !Waits(g, id) then g
    else
      g.(releases := g.releases[id := GivenUp],
         rows := if shown && g.rows[id].status == AwaitingVault
                 then g.rows[id := g.rows[id].(status := ManualReview, error := Some(code))] else g.rows)
  }

  /** An operator sends a given-up transfer again. */
  function RetryRelease(g: Tables, id: Id): Tables {
    if id !in g.rows || id !in g.releases || g.releases[id] != GivenUp
       || !(g.rows[id].status == AwaitingVault || LooksLost(g.rows[id]))
    then g
    else
      g.(releases := g.releases[id := Outstanding],
         rows := if g.rows[id].status == ManualReview
                 then g.rows[id := g.rows[id].(status := AwaitingVault, error := None)] else g.rows)
  }

  /** The one operation that creates money: guarded by the status it updates from. */
  function Refund(row: Row, code: Code): Row {
    if row.status in {PendingApproval, InQueue, Processing, ManualReview}
    then row.(status := Refunded, error := Some(code), refunds := row.refunds + [code])
    else row
  }

  function RejectWithdrawal(g: Tables, id: Id): Tables {
    if id !in g.rows || g.rows[id].status != PendingApproval then g
    else
      g.(rows := g.rows[id := Refund(g.rows[id], RejectedByAdmin).(status := Rejected)],
         jobs := if id in g.jobs && g.jobs[id].status == Queued
                 then g.jobs[id := g.jobs[id].(status := Retired, lastError := Some(RejectedByAdmin))]
                 else g.jobs)
  }

  // The bot's side: claiming a job, leases running out, and results.

  predicate Expired(job: Job, now: int) {
    job.status == Leased && job.leaseUntil < now
  }

  function ExpireRow(g: Tables, id: Id, now: int): Row
    requires id in g.rows
  {
    if id in g.jobs && Expired(g.jobs[id], now) && g.rows[id].Open()
    then g.rows[id].(status := ManualReview, error := Some(LeaseExpired)) else g.rows[id]
  }

  function ExpireJob(job: Job, now: int): Job {
    if Expired(job, now) then job.(status := DeadLetter, lastError := Some(LeaseExpired)) else job
  }

  /** Leases that ran out: the job is dead but keeps its token, and the withdrawal goes to a human. */
  function ExpireLeases(g: Tables, now: int): Tables {
    g.(jobs := map id | id in g.jobs :: ExpireJob(g.jobs[id], now),
       rows := map id | id in g.rows :: ExpireRow(g, id, now))
  }

  predicate Claimable(g: Tables, id: Id, now: int) {
    && id in g.jobs && id in g.rows
    && g.jobs[id].status == Queued
    && g.jobs[id].attempts < MAX_ATTEMPTS
    && g.jobs[id].available.At? && g.jobs[id].available.time <= now
  }

  function LeaseJob(g: Tables, event: EventId, id: Id, now: int): Tables
    requires id in g.jobs && id in g.rows
  {
    g.(jobs := g.jobs[id := g.jobs[id].(status := Leased, attempts := g.jobs[id].attempts + 1,
                                        token := Some(event), leaseUntil := now + LEASE_MS)],
       rows := if g.rows[id].status == InQueue then g.rows[id := g.rows[id].(status := Processing)] else g.rows,
       claims := g.claims[event := ForPayout(id)])
  }

  /** A claim request. Asked again under the same event it changes nothing: the stored answer stands. */
  function ClaimJob(g: Tables, event: EventId, choice: Given, now: int): Tables {
    if event in g.claims then g
    else
      var swept := ExpireLeases(g, now);
      match choice
      case ForPayout(id) =>
        if Claimable(swept, id, now) then LeaseJob(swept, event, id, now)
        else swept.(claims := swept.claims[event := Nothing])
      case _ => swept.(claims := swept.claims[event := choice])
  }

  /** Money landed on the bot: whatever waits for funds is tried now. */
  function WakeJob(job: Job, now: int): Job {
    if job.status == Queued && job.lastError == Some(InsufficientFunds)
       && (job.available == Held || job.available.time > now)
    then job.(available := At(now)) else job
  }

  function WakeFundsQueue(g: Tables, now: int): Tables {
    g.(jobs := map id | id in g.jobs :: WakeJob(g.jobs[id], now))
  }

  function TokenMatches(job: Job, r: Result): bool {
    job.token == Some(r.token)
  }

  predicate ValidLease(job: Job, r: Result, now: int) {
    job.status == Leased && TokenMatches(job, r) && job.leaseUntil >= now
  }

  /** A confirmation arriving after its lease ran out, under the token that lease was issued with. */
  predicate LateConfirmation(job: Job, r: Result, now: int) {
    && !ValidLease(job, r, now) && TokenMatches(job, r) && r.outcome == Completed
    && (job.status == Leased || (job.status == DeadLetter && job.lastError == Some(LeaseExpired)))
  }

  function AcceptConfirmed(row: Row): Row {
    if row.Open() || (row.status == ManualReview && row.error in {Some(LeaseExpired), Some(InvalidLease)})
    then row.(status := Paid, error := None, paidBy := Some(FromReceipt)) else row
  }

  function FinishJob(job: Job, status: JobStatus, code: Option<Code>): Job {
    job.(status := status, token := None, lastError := code)
  }

  /** A failed result under a valid lease: requeued, refunded, or put in front of an operator. */
  function FailedJob(job: Job, retryable: bool, code: Code, now: int): Job {
    if code == InsufficientFunds then
      FinishJob(job, Queued, Some(code)).(attempts := if job.attempts > 0 then job.attempts - 1 else 0,
                                          available := At(now + FUNDS_RETRY_MS))
    else
      var backoff := if job.attempts * job.attempts < 60 then job.attempts * job.attempts else 60;
      FinishJob(job, if !retryable || job.attempts >= MAX_ATTEMPTS then DeadLetter else Queued, Some(code))
        .(available := At(now + backoff * 1000))
  }

  function FailedRow(row: Row, job: Job, retryable: bool, code: Code): Row {
    var terminal := !retryable || job.attempts >= MAX_ATTEMPTS;
    if code == InsufficientFunds then
      if row.Open() then row.(status := InQueue, error := Some(code)) else row
    else if terminal && code == NotSent then Refund(row, NotSent)
    else if row.Open() then row.(status := if terminal then ManualReview else InQueue, error := Some(code))
    else row
  }

  function InvalidRow(row: Row): Row {
    if row.Open() then row.(status := ManualReview, error := Some(InvalidLease)) else row
  }

  /** What one result does to its job and its withdrawal, once the journal has taken it. */
  function SettleResult(job: Job, row: Row, r: Result, now: int): (Job, Row) {
    if LateConfirmation(job, r, now) then (FinishJob(job, Done, None), AcceptConfirmed(row))
    else if !ValidLease(job, r, now) then
      if job.status == Done then (job, row)
      else (FinishJob(job, DeadLetter, Some(InvalidLease)), InvalidRow(row))
    else match r.outcome
      case Completed =>
        (job.(status := Done, token := None),
         if row.Open() then row.(status := Paid, error := None, paidBy := Some(FromReceipt)) else row)
      case Failed(retryable, code) =>
        (FailedJob(job, retryable, code, now), FailedRow(row, job, retryable, code))
  }

  /** A result event. The journal takes each event once, so its retries change nothing. */
  function HandleResult(g: Tables, r: Result, now: int): Tables {
    if r.event in g.journal then g
    else
      var journalled := g.(journal := g.journal + {r.event});
      match r.job
      case OtherMoney => journalled
      case Withdrawal(id) =>
        if id !in g.jobs || id !in g.rows then journalled
        else
          var (job, row) := SettleResult(g.jobs[id], g.rows[id], r, now);
          journalled.(jobs := g.jobs[id := job], rows := g.rows[id := row])
  }

  // People, and the bot's balance.

  function QuarantineJob(job: Job): Job {
    if job.status in {Queued, Leased}
    then job.(status := DeadLetter, token := None, lastError := Some(Quarantined)) else job
  }

  /** An operator quarantining the bot stops every job it has, claimed or not. */
  function QuarantineBot(g: Tables): Tables {
    g.(jobs := map id | id in g.jobs :: QuarantineJob(g.jobs[id]))
  }

  function CloseReview(g: Tables, id: Id, row: Row): Tables {
    g.(rows := g.rows[id := row],
       jobs := if id in g.jobs && g.jobs[id].status == DeadLetter
               then g.jobs[id := g.jobs[id].(status := Done, token := None)] else g.jobs)
  }

  /** An operator's answer to a withdrawal under review. */
  function ResolveReview(g: Tables, id: Id, paid: bool): Tables {
    if id !in g.rows || g.rows[id].status != ManualReview then g
    else CloseReview(g, id, if paid then g.rows[id].(status := Paid, error := None, paidBy := Some(FromOperator))
                            else Refund(g.rows[id], ConfirmedNotPaid))
  }

  /** The automatic answer to an unconfirmed payout, from a balance read after it. */
  function SettleFromBalance(g: Tables, id: Id, verdict: Verdict): Tables {
    if id !in g.rows || g.rows[id].status != ManualReview || g.rows[id].error != Some(Unconfirmed)
       || verdict == Unclear
    then g
    else CloseReview(g, id, if verdict == PaidInGame
                            then g.rows[id].(status := Paid, error := None, paidBy := Some(FromBalance))
                            else Refund(g.rows[id], BalanceShowsNotPaid))
  }
}
