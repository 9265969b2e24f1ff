/**
 * Worker, gateway and game server together: every event that can happen, when it can, and what it
 * does. What the environment is trusted for stands in `Enabled`; everything else may interleave.
 */
module PayoutSystem {
  import opened BalanceEvidence
  import opened Decimal
  import opened Gateway
  import opened MoneyReading
  import opened Options
  import opened WorkerModel

  datatype Why = ForRefusal(refusal: Refusal) | ForCooldown | Lost

  /** What the server made of a command; once decided it stays. Moved carries the receipt's figure. */
  datatype Fate = Undecided | Moved(displayed: string) | NotMoved(why: Why)

  datatype State = State(tables: Tables, worker: Worker, fates: seq<Fate>)

  datatype GatewayEvent =
    | Requested(id: Id, payee: Name, amount: string, approved: bool, short: bool)
    | HeldBack(id: Id)
    | Approved(id: Id, payee: Name, amount: string, short: bool)
    | RejectedByOperator(id: Id)
    | ReleaseLanded(id: Id, payee: Name, amount: string, byReceipt: bool, at: int)
    | ReleaseGivenUp(id: Id, code: Code, shown: bool)
    | ReleaseRetried(id: Id)
    | ClaimArrives(event: EventId, choice: Given)
    | ResultArrives(result: Result)
    | MaintenanceRuns
    | FundsArrive
    | BotQuarantined
    | ReviewResolved(id: Id, paid: bool)
    | BalanceJudged(id: Id, tracked: int, drift: int)

  datatype WorkerEvent =
    | Ticks(to: int)
    | Polls(alive: bool)
    | ClaimReturns
    | ClaimFails
    | OtherWorkEnds(reconnect: bool)
    | WaitEnds(throws: bool)
    | WindowEnds(timer: TimerId)
    | RefusalSeen(refusal: Refusal)
    | CooldownSeen
    | ReceiptSeen(sent: nat)
    | ReportEnds(delivered: bool)
    | BalanceDue
    | IdleReadDue(gap: int)
    | PaymentSeen
    | BalanceSeen
    | ProbeDue(probe: Probe)
    | RelogDue
    | RelogRetried
    | ManualPlayChecked(parked: bool)
    | ConnectionEnds(cause: Cause, gap: int)
    | LoginStarts
    | Spawns(idleGap: int)
    | RtpDue
    | RtpSettled
    | TransferSet(on: bool)
    | Stops
    | Restarts

  datatype Event =
    | AtGateway(event: GatewayEvent, now: int)
    | AtWorker(did: WorkerEvent)
    | AtServer(sent: nat, fate: Fate)

  ghost predicate IsPay(s: State, i: int) {
    0 <= i < |s.worker.wire.log| && s.worker.wire.log[i].command.Pay?
  }

  ghost predicate IsPayFor(s: State, i: int, id: Id) {
    IsPay(s, i) && s.worker.wire.log[i].command.job.ref == Withdrawal(id)
  }

  ghost predicate HasMoved(s: State, id: Id) {
    exists i :: IsPayFor(s, i, id) && i < |s.fates| && s.fates[i].Moved?
  }

  ghost predicate AllDecided(s: State, id: Id) {
    forall i | IsPayFor(s, i, id) && i < |s.fates| :: !s.fates[i].Undecided?
  }

  // When an event can happen.

  ghost predicate GatewayEnabled(s: State, e: GatewayEvent) {
    match e
    // Only requests the worker signed reach the gateway; they may come late, again, or never.
    case ClaimArrives(event, _) => event in s.worker.wire.claimsSent
    case ResultArrives(result) => result in s.worker.wire.posted
    // The balance is read after the payout was decided, and unbooked money does not imitate the payout.
    case BalanceJudged(id, _, drift) =>
      id in s.tables.jobs && IsAmountText(s.tables.jobs[id].amount) ==>
        AllDecided(s, id) && !Imitates(drift, Value(s.tables.jobs[id].amount), HasMoved(s, id))
    case _ => true
  }

  ghost predicate WorkerEnabled(s: State, e: WorkerEvent) {
    var w := s.worker;
    match e
    case Ticks(to) => to >= w.now
    case Polls(_) => true
    case ClaimReturns => w.desk.phase.Claiming? && w.desk.phase.event in s.tables.claims
    case ClaimFails => w.desk.phase.Claiming?
    case OtherWorkEnds(_) => w.desk.phase.OtherJob?
    case WaitEnds(_) => w.desk.phase.Gap? && w.now >= w.desk.phase.wakeAt
    case WindowEnds(timer) => timer in w.desk.payTimers && w.now >= w.desk.payTimers[timer]
    // A refusal or a cooldown seen while a /pay waits is the server's answer to that /pay.
    case RefusalSeen(refusal) =>
      w.link.conn.Some? && (w.desk.pending.Some? && w.desk.pending.value.sent < |s.fates| ==>
        s.fates[w.desk.pending.value.sent] == NotMoved(ForRefusal(refusal)))
    case CooldownSeen =>
      w.link.conn.Some? && (w.desk.pending.Some? && w.desk.pending.value.sent < |s.fates| ==>
        s.fates[w.desk.pending.value.sent] == NotMoved(ForCooldown))
    // A receipt comes for a /pay that moved money, on the connection that /pay was written to.
    case ReceiptSeen(sent) =>
      IsPay(s, sent) && sent < |s.fates| && s.fates[sent].Moved? && w.link.conn == Some(w.wire.log[sent].conn)
    case ReportEnds(_) => w.desk.phase.Reporting?
    case BalanceSeen => w.link.conn.Some?
    // Timers fire when they are due or later.
    case BalanceDue => w.watch.balanceTimer.Some? && w.now >= w.watch.balanceTimer.value
    case IdleReadDue(gap) => w.watch.idleTimer.Some? && w.now >= w.watch.idleTimer.value && gap >= BALANCE_IDLE_MIN_MS
    case PaymentSeen => w.link.conn.Some?
    // And in the order they are due: neither a probe nor a login overtakes a payout window due before it.
    case ProbeDue(probe) =>
      && probe in w.watch.probes && w.now >= probe.sentAt + PROBE_MS
      && forall timer | timer in w.desk.payTimers :: w.desk.payTimers[timer] >= probe.sentAt + PROBE_MS
    case ConnectionEnds(cause, gap) => w.link.conn.Some? && GapFits(w.link.relogging, cause, gap)
    case LoginStarts =>
      w.link.conn.None? && w.now >= w.link.reconnectAt
      && forall timer | timer in w.desk.payTimers :: w.desk.payTimers[timer] >= w.link.reconnectAt
    case Spawns(gap) => w.link.conn.Some? && !w.link.spawned && gap >= BALANCE_IDLE_MIN_MS
    case RtpSettled => w.link.teleporting
    case _ => true
  }

  ghost predicate Enabled(s: State, e: Event) {
    match e
    case AtGateway(event, _) => GatewayEnabled(s, event)
    case AtWorker(did) => WorkerEnabled(s, did)
    case AtServer(sent, _) => IsPay(s, sent) && sent < |s.fates| && s.fates[sent].Undecided?
  }

  // What it does.

  ghost function VerdictFor(s: State, id: Id, tracked: int, drift: int): Verdict {
    if id !in s.tables.jobs || !IsAmountText(s.tables.jobs[id].amount) then Unclear
    else
      var amount := Value(s.tables.jobs[id].amount);
      Judge(tracked, Reading(tracked, amount, HasMoved(s, id), drift), 1, amount)
  }

  ghost function ApplyGateway(s: State, e: GatewayEvent, now: int): Tables {
    var g := s.tables;
    match e
    case Requested(id, payee, amount, approved, short) => RequestWithdrawal(g, id, payee, amount, approved, short, now)
    case HeldBack(id) => HoldWithdrawal(g, id)
    case Approved(id, payee, amount, short) => ApproveWithdrawal(g, id, payee, amount, short, now)
    case RejectedByOperator(id) => RejectWithdrawal(g, id)
    case ReleaseLanded(id, payee, amount, byReceipt, at) => LandRelease(g, id, payee, amount, byReceipt, at)
    case ReleaseGivenUp(id, code, shown) => GiveUpRelease(g, id, code, shown)
    case ReleaseRetried(id) => RetryRelease(g, id)
    case ClaimArrives(event, choice) => ClaimJob(g, event, choice, now)
    case ResultArrives(result) => HandleResult(g, result, now)
    case MaintenanceRuns => ExpireLeases(g, now)
    case FundsArrive => WakeFundsQueue(g, now)
    case BotQuarantined => QuarantineBot(g)
    case ReviewResolved(id, paid) => ResolveReview(g, id, paid)
    case BalanceJudged(id, tracked, drift) => Gateway.SettleFromBalance(g, id, VerdictFor(s, id, tracked, drift))
  }

  /** The claim's answer: a withdrawal's payout, a payment of the platform's own, other work, or nothing. */
  ghost function ClaimedJob(s: State, w: Worker): Worker
    requires w.desk.phase.Claiming? && w.desk.phase.event in s.tables.claims
  {
    match s.tables.claims[w.desk.phase.event]
    case ForPayout(id) =>
      if id in s.tables.jobs
      then StartPayout(w, Claimed(Withdrawal(id), w.desk.phase.event, s.tables.jobs[id].payee, s.tables.jobs[id].amount))
      else EndPoll(w)
    case ForTransfer(payee, amount) => StartPayout(w, Claimed(OtherMoney, w.desk.phase.event, payee, amount))
    case OtherWork => StartOtherJob(w)
    case Nothing => EndPoll(w)
  }

  ghost function ApplyWorker(s: State, e: WorkerEvent): Worker
    requires WorkerEnabled(s, e)
  {
    var w := s.worker;
    match e
    case Ticks(to) => Tick(w, to)
    case Polls(alive) => PollJobs(w, alive)
    case ClaimReturns => ClaimedJob(s, w)
    case ClaimFails => EndPoll(w)
    case OtherWorkEnds(reconnect) => EndOtherJob(w, reconnect)
    case WaitEnds(throws) => SendPayout(w, throws)
    case WindowEnds(timer) => PayoutTimer(w, timer)
    case RefusalSeen(refusal) => SeeRefusal(w, refusal)
    case CooldownSeen => SeeCooldown(w)
    case ReceiptSeen(sent) => SeeReceipt(w, w.wire.log[sent].command.job.payee, s.fates[sent].displayed)
    case ReportEnds(delivered) => EndReport(w, delivered)
    case BalanceDue => BalanceTimer(w)
    case IdleReadDue(gap) => IdleTimer(w, gap)
    case PaymentSeen => SeePayment(w)
    case BalanceSeen => SeeBalance(w)
    case ProbeDue(probe) => ProbeTimer(w, probe)
    case RelogDue => RelogTimer(w)
    case RelogRetried => RelogWhenIdle(w)
    case ManualPlayChecked(parked) => CheckManualPlay(w, parked)
    case ConnectionEnds(_, gap) => EndConnection(w, gap)
    case LoginStarts => OpenConnection(w)
    case Spawns(gap) => Spawn(w, gap)
    case RtpDue => SendRtp(w)
    case RtpSettled => TeleportSettled(w)
    case TransferSet(on) => SetTransferring(w, on)
    case Stops => Stop(w)
    case Restarts => Restarted(w)
  }

  /** A fate for every command: new ones are undecided. */
  ghost function Extended(fates: seq<Fate>, n: nat): seq<Fate> {
    if n <= |fates| then fates else fates + seq(n - |fates|, _ => Undecided)
  }

  ghost function After(s: State, w: Worker): State {
    s.(worker := w, fates := Extended(s.fates, |w.wire.log|))
  }

  ghost function Apply(s: State, e: Event): State
    requires Enabled(s, e)
  {
    match e
    case AtGateway(event, now) => s.(tables := ApplyGateway(s, event, now))
    case AtWorker(did) => After(s, ApplyWorker(s, did))
    case AtServer(sent, fate) => s.(fates := s.fates[sent := fate])
  }

  ghost function Initial(now: int): State {
    State(Tables(map[], map[], map[], map[], {}), NewWorker(now), [])
  }

  /** A state after every event, each event possible where it happens. */
  ghost predicate IsPath(run: seq<State>, events: seq<Event>) {
    && |run| == |events| + 1
    && forall i | 0 <= i < |events| :: Enabled(run[i], events[i]) && run[i + 1] == Apply(run[i], events[i])
  }

  /** A path from the beginning. */
  ghost predicate IsRun(run: seq<State>, events: seq<Event>) {
    IsPath(run, events) && exists now :: now >= 0 && run[0] == Initial(now)
  }
}
