/**
 * The payout worker as a value: its fields, and one function for each stretch of code that runs
 * without waiting. Relogs and manual-play checks may come due at any moment, which covers every
 * schedule their timers can produce; the timers behind balance reads are fields.
 */
module WorkerModel {
  import opened Gateway
  import opened MoneyReading
  import opened Options

  const PAYOUT_CONFIRM_MS := 8_000
  const BALANCE_REPLY_MS := 5_000
  const PROBE_MS := BALANCE_REPLY_MS + 500
  const BALANCE_AFTER_MOVE_MS := 4_000
  const BALANCE_IDLE_MIN_MS := 1_200_000
  const COMMAND_PROBE_GAP_MS := 15_000
  const COMMAND_PROBE_LIMIT := 4
  const COMMAND_GAP_MS := 1_500
  const RELOG_OFFLINE_MIN_MS := 6_000
  const RELOG_OFFLINE_MAX_MS := 15_000
  const RECONNECT_GAP_MS := 10_000
  const HELD_OFF_RETRY_MS := 300_000
  const AUTH_SERVICE_GAP_MIN_MS := 15_000
  const BANNED_RETRY_MS := 21_600_000

  type ConnId = nat
  type TimerId = nat

  datatype Claimed = Claimed(ref: JobRef, token: EventId, payee: Name, amount: string)

  /** A /pay, of whatever kind of job; a /bal, and whether the idle timer asked for it; the join's teleport. */
  datatype Command =
    | Pay(job: Claimed, claimedOn: ConnId)
    | Bal(idle: bool)
    | Rtp

  /** A command written to the server: on which connection, when, and the time of the latest /bal answer by then. */
  datatype Sent = Sent(command: Command, conn: ConnId, at: int, answered: int)

  datatype Refusal = NoFunds | PaymentsDisabled

  /** What a /pay's wait can end with; NoAnswer is the window running out. */
  datatype Answer = Receipt(displayed: string) | RefusedFor(refusal: Refusal) | NoAnswer

  /** `pendingPayout`: the timer behind it, and the command it was armed for. */
  datatype Pending = Pending(timer: TimerId, payee: Name, sent: nat)

  datatype Probe = Probe(timer: TimerId, conn: ConnId, sentAt: int)

  /** Where the running job poll is suspended. */
  datatype Phase =
    | Idle
    | Claiming(event: EventId, conn: ConnId)
    | Gap(job: Claimed, conn: ConnId, wakeAt: int)
    | InFlight(job: Claimed, timer: TimerId, sent: nat)
    | Reporting(reconnect: bool)
    | OtherJob

  /** The connection, and what decides about the next. */
  datatype Link = Link(
    conn: Option<ConnId>, spawned: bool, teleporting: bool,
    nextConn: ConnId, reconnectAt: int, relogDue: bool, relogging: bool)

  /** What is known of the server's answers to /bal, and the timers that ask. */
  datatype Watch = Watch(
    awaitingAnswer: bool, lastBalanceSentAt: int, lastBalanceAnswerAt: int, balanceReplyUntil: int,
    unansweredProbes: nat, probes: set<Probe>, balanceTimer: Option<int>, idleTimer: Option<int>)

  /** The job poll and the payout it is on. */
  datatype Desk = Desk(
    polling: bool, payoutPreparing: bool, payoutCooldownSeen: bool,
    pending: Option<Pending>, payTimers: map<TimerId, int>, phase: Phase)

  /** What has left the process: commands, requests to the gateway, logouts; and the names it has used up. */
  datatype Wire = Wire(
    lastCommandAt: int, log: seq<Sent>, posted: seq<Result>, claimsSent: seq<EventId>,
    answers: seq<int>, quits: nat, nextId: nat)

  datatype Worker = Worker(now: int, stopped: bool, transferring: bool, link: Link, watch: Watch, desk: Desk, wire: Wire)

  function NewWorker(now: int): Worker {
    Worker(now, false, false, Link(None, false, false, 0, now, false, false), Watch(false, 0, 0, 0, 0, {}, None, None),
           Desk(false, false, false, None, map[], Idle), Wire(0, [], [], [], [], 0, 0))
  }

  /** A process that died and came back: the fields start over; what was sent stays sent. */
  function Restarted(w: Worker): Worker {
    NewWorker(w.now).(link := Link(None, false, false, w.link.nextConn, w.now, false, false),
                      wire := w.wire.(lastCommandAt := 0))
  }

  function Max(a: int, b: int): int {
    if a > b then a else b
  }

  function Min(a: int, b: int): int {
    if a < b then a else b
  }

  // Claiming a job.

  /** Whether the bot may ask for work at all (captureJobClaimState); `alive` is bot.health > 0. */
  predicate MayClaim(w: Worker, alive: bool) {
    && w.link.conn.Some? && w.link.spawned && !w.stopped && !w.transferring && !w.link.relogDue && !w.link.teleporting
    && alive && !w.watch.awaitingAnswer
  }

  function PollJobs(w: Worker, alive: bool): Worker {
    if w.desk.polling || !MayClaim(w, alive) then w
    else
      w.(desk := w.desk.(polling := true, phase := Claiming(w.wire.nextId, w.link.conn.value)),
         wire := w.wire.(nextId := w.wire.nextId + 1, claimsSent := w.wire.claimsSent + [w.wire.nextId]))
  }

  /** Nothing to do, or the claim failed. */
  function EndPoll(w: Worker): Worker {
    w.(desk := w.desk.(polling := false, phase := Idle))
  }

  function StartOtherJob(w: Worker): Worker {
    w.(desk := w.desk.(phase := OtherJob))
  }

  // Paying: the wait before the command, the command, and its answer.

  function ClearAt(w: Worker): int {
    Min(Max(w.wire.lastCommandAt + COMMAND_GAP_MS, w.watch.balanceReplyUntil), w.now + BALANCE_REPLY_MS + COMMAND_GAP_MS)
  }

  /** balanceSoon: one timer; asked for while it runs it stays as it is. */
  function BalanceSoon(w: Worker, delay: int): Worker {
    w.(watch := w.watch.(balanceTimer := if w.watch.balanceTimer.Some?
      || w.stopped then w.watch.balanceTimer else Some(w.now + delay)))
  }

  function StartPayout(w: Worker, job: Claimed): Worker
    requires w.desk.phase.Claiming?
  {
    BalanceSoon(w, BALANCE_AFTER_MOVE_MS + PAYOUT_CONFIRM_MS)
      .(desk := w.desk.(payoutPreparing := true, phase := Gap(job, w.desk.phase.conn, Max(ClearAt(w), w.now))))
  }

  predicate ConnectionLive(w: Worker, conn: ConnId) {
    w.link.conn == Some(conn) && !w.stopped && w.link.spawned && !w.transferring
  }

  /** Reports a job's result, and what happens once it is reported. */
  function Report(w: Worker, job: Claimed, outcome: Outcome, reconnect: bool): Worker {
    w.(desk := w.desk.(phase := Reporting(reconnect)),
       wire := w.wire.(nextId := w.wire.nextId + 1,
         posted := w.wire.posted + [Result(w.wire.nextId, job.ref, job.token, outcome)]))
  }

  function SendCommand(w: Worker, command: Command): Worker
    requires w.link.conn.Some?
  {
    w.(wire := w.wire.(lastCommandAt := w.now,
                       log := w.wire.log + [Sent(command, w.link.conn.value, w.now, w.watch.lastBalanceAnswerAt)]))
  }

  /** awaitPayoutReceipt: the entry and its timer, armed before the command is written. */
  function ArmReceipt(w: Worker, payee: Name): Worker {
    w.(wire := w.wire.(nextId := w.wire.nextId + 1),
       desk := w.desk.(payTimers := w.desk.payTimers[w.wire.nextId := w.now + PAYOUT_CONFIRM_MS],
                       pending := Some(Pending(w.wire.nextId, payee, |w.wire.log|))))
  }

  /** A /bal is still unanswered, so the server may not be listening. */
  predicate AnswerDue(w: Worker) {
    w.watch.awaitingAnswer || w.watch.lastBalanceSentAt > w.watch.lastBalanceAnswerAt
  }

  function HoldBack(w: Worker, retryable: bool): Worker
    requires w.desk.phase.Gap?
  {
    Report(w.(desk := w.desk.(payoutPreparing := false),
              watch := w.watch.(awaitingAnswer := w.watch.awaitingAnswer || retryable)),
           w.desk.phase.job, Failed(retryable, NotSent), false)
  }

  function WritePayout(w: Worker): Worker
    requires w.desk.phase.Gap? && w.link.conn.Some?
  {
    var armed := ArmReceipt(w, w.desk.phase.job.payee);
    SendCommand(armed, Pay(w.desk.phase.job, w.desk.phase.conn))
      .(desk := armed.desk.(payoutPreparing := false, payoutCooldownSeen := false,
                            phase := InFlight(w.desk.phase.job, w.wire.nextId, |w.wire.log|)))
  }

  /** The wait is over. `throws` is the write failing, which leaves the entry and its timer armed. */
  function SendPayout(w: Worker, throws: bool): Worker
    requires w.desk.phase.Gap?
  {
    if !ConnectionLive(w, w.desk.phase.conn) then HoldBack(w, false)
    else if AnswerDue(w) then HoldBack(w, true)
    else if throws then Report(WritePayout(w), w.desk.phase.job, Failed(false, PayoutFailed), false)
    else WritePayout(w)
  }

  /** What sendCashPayout makes of the answer. */
  function Conclusion(job: Claimed, answer: Answer, cooldown: bool): Outcome {
    match answer
    case RefusedFor(NoFunds) => Failed(false, InsufficientFunds)
    case RefusedFor(PaymentsDisabled) => Failed(false, NotSent)
    case NoAnswer => if cooldown then Failed(true, NotSent) else Failed(false, Unconfirmed)
    case Receipt(displayed) =>
      if IsAmountText(job.amount) && CoversRequestedAmount(displayed, job.amount)
      then Completed else Failed(false, AmountMismatch)
  }

  /** sendCashPayout from the answer on. Only a window that ran out with nothing seen makes it reconnect. */
  function Conclude(w: Worker, job: Claimed, answer: Answer): Worker {
    Report(w.(desk := w.desk.(payoutCooldownSeen := w.desk.payoutCooldownSeen && answer != NoAnswer)), job,
           Conclusion(job, answer, w.desk.payoutCooldownSeen), answer == NoAnswer && !w.desk.payoutCooldownSeen)
  }

  /** The payout waiting on this timer, if it is the one that is running, goes on with the answer. */
  function Resolve(w: Worker, timer: TimerId, answer: Answer): Worker {
    if w.desk.phase.InFlight? && w.desk.phase.timer == timer then Conclude(w, w.desk.phase.job, answer) else w
  }

  /** The entry is gone, and the timer with it. */
  function Disarmed(w: Worker, timer: TimerId): Worker {
    w.(desk := w.desk.(pending := None, payTimers := w.desk.payTimers - {timer}))
  }

  /** A window ran out. Whatever entry is there is cleared, also one armed by a later payout. */
  function PayoutTimer(w: Worker, timer: TimerId): Worker {
    Resolve(Disarmed(w, timer), timer, NoAnswer)
  }

  function SettlePending(w: Worker, answer: Answer): Worker {
    if w.desk.pending.None? then w
    else Resolve(Disarmed(w, w.desk.pending.value.timer), w.desk.pending.value.timer, answer)
  }

  function SeeRefusal(w: Worker, refusal: Refusal): Worker {
    SettlePending(w, RefusedFor(refusal))
  }

  function SeeCooldown(w: Worker): Worker {
    w.(desk := w.desk.(payoutCooldownSeen := w.desk.payoutCooldownSeen || w.desk.pending.Some?))
  }

  function SeeReceipt(w: Worker, payee: Name, displayed: string): Worker {
    if w.desk.pending.Some? && w.desk.pending.value.payee == payee then SettlePending(w, Receipt(displayed)) else w
  }

  /** The result was reported (or could not be): the poll ends, after a reconnect if one was due. */
  function EndReport(w: Worker, delivered: bool): Worker
    requires w.desk.phase.Reporting?
  {
    EndPoll(CycleConnection(w, delivered && w.desk.phase.reconnect))
  }

  /** cycleConnection, when there is reason to: quits, and leaves coming back to the `end` handler. */
  function CycleConnection(w: Worker, reason: bool): Worker {
    w.(wire := w.wire.(quits := if reason && w.link.conn.Some? then w.wire.quits + 1 else w.wire.quits))
  }

  function EndOtherJob(w: Worker, reconnect: bool): Worker {
    EndPoll(CycleConnection(w, reconnect))
  }

  // Reading the balance, and noticing silence.

  /** Money arrived from a player: the balance is read again a little later. */
  function SeePayment(w: Worker): Worker {
    BalanceSoon(w, BALANCE_AFTER_MOVE_MS)
  }

  function RequestBalance(w: Worker, idle: bool): Worker {
    if w.link.conn.None? || !w.link.spawned || w.stopped then w
    else if w.desk.pending.Some? || w.desk.payoutPreparing || w.transferring || w.link.teleporting
    then BalanceSoon(w, BALANCE_AFTER_MOVE_MS)
    else AskBalance(w, idle)
  }

  function AskBalance(w: Worker, idle: bool): Worker
    requires w.link.conn.Some?
  {
    var sent := SendCommand(w, Bal(idle));
    sent.(watch := w.watch.(balanceReplyUntil := w.now + BALANCE_REPLY_MS, lastBalanceSentAt := w.now,
                            probes := w.watch.probes + {Probe(w.wire.nextId, w.link.conn.value, w.now)}),
          wire := sent.wire.(nextId := w.wire.nextId + 1))
  }

  /** The one balance timer fires. */
  function BalanceTimer(w: Worker): Worker {
    RequestBalance(w.(watch := w.watch.(balanceTimer := None)), false)
  }

  /** The idle timer fires, and is armed again `gap` later. */
  function IdleTimer(w: Worker, gap: int): Worker {
    ArmIdle(RequestBalance(w.(watch := w.watch.(idleTimer := None)), true), gap)
  }

  function ArmIdle(w: Worker, gap: int): Worker {
    w.(watch := w.watch.(idleTimer := if w.stopped then w.watch.idleTimer else Some(w.now + gap)))
  }

  function SeeBalance(w: Worker): Worker {
    if w.now >= w.watch.balanceReplyUntil then w
    else w.(watch := w.watch.(balanceReplyUntil := 0, lastBalanceAnswerAt := w.now, awaitingAnswer := false,
                              unansweredProbes := 0),
            wire := w.wire.(answers := w.wire.answers + [w.now]))
  }

  /** The server has not answered the /bal this probe stands for, in the session it was sent in. */
  predicate Silent(w: Worker, probe: Probe) {
    w.watch.lastBalanceAnswerAt < probe.sentAt && w.link.conn == Some(probe.conn) && !w.stopped
  }

  function DropProbe(w: Worker, probe: Probe): Worker {
    w.(watch := w.watch.(probes := w.watch.probes - {probe}))
  }

  /** One more silent probe: the gate closes, and at the limit the worker logs in again; before it, it asks again. */
  function CountSilence(w: Worker): Worker {
    var counted := w.(watch := w.watch.(awaitingAnswer := true, unansweredProbes := w.watch.unansweredProbes + 1));
    if counted.watch.unansweredProbes >= COMMAND_PROBE_LIMIT then CycleConnection(counted, true)
    else BalanceSoon(counted, COMMAND_PROBE_GAP_MS)
  }

  function ProbeTimer(w: Worker, probe: Probe): Worker {
    if Silent(w, probe) then CountSilence(DropProbe(w, probe)) else DropProbe(w, probe)
  }

  // Logging out on purpose.

  /** Everything that makes a due relog wait. */
  predicate Busy(w: Worker) {
    w.desk.polling || w.desk.pending.Some? || w.transferring || w.link.teleporting || w.now < w.watch.balanceReplyUntil
  }

  function RelogWhenIdle(w: Worker): Worker {
    var leaves := !w.stopped && w.link.relogDue && !w.link.relogging && w.link.conn.Some? && !Busy(w);
    CycleConnection(w.(link := w.link.(relogging := w.link.relogging || leaves)), leaves)
  }

  function RelogTimer(w: Worker): Worker {
    RelogWhenIdle(w.(link := w.link.(relogDue := true)))
  }

  /** checkManualPlay, after the gateway has answered whether an operator switched the bot off. */
  function CheckManualPlay(w: Worker, parked: bool): Worker {
    CycleConnection(w, parked && w.desk.pending.None? && !w.desk.payoutPreparing && !w.transferring && !w.desk.polling)
  }

  // The connection's life.

  datatype Cause = Ban | HeldOff | AuthService | Ordinary

  /** How long the `end` handler may wait before the next login. */
  predicate GapFits(relogging: bool, cause: Cause, gap: int) {
    match cause
    case Ban => gap == BANNED_RETRY_MS
    case HeldOff => gap >= HELD_OFF_RETRY_MS
    case AuthService => gap >= AUTH_SERVICE_GAP_MIN_MS
    case Ordinary =>
      if relogging then RELOG_OFFLINE_MIN_MS <= gap < RELOG_OFFLINE_MAX_MS
      else gap == RECONNECT_GAP_MS || gap >= HELD_OFF_RETRY_MS
  }

  function EndConnection(w: Worker, gap: int): Worker {
    w.(link := Link(None, false, false, w.link.nextConn, w.now + gap, false, false),
       watch := w.watch.(probes := {}, balanceReplyUntil := 0, awaitingAnswer := false, balanceTimer := None,
                         idleTimer := None))
  }

  function OpenConnection(w: Worker): Worker {
    if w.stopped || w.link.conn.Some? then w
    else w.(link := w.link.(conn := Some(w.link.nextConn), nextConn := w.link.nextConn + 1))
  }

  /** The join: no job is claimed before a first answer, and no /bal is sent before the join's teleport settled. */
  function Spawn(w: Worker, gap: int): Worker {
    ArmIdle(w.(link := w.link.(spawned := true, teleporting := true),
               watch := w.watch.(awaitingAnswer := true, unansweredProbes := 0)), gap)
  }

  function SendRtp(w: Worker): Worker {
    if w.link.conn.None? || !w.link.spawned || w.stopped || !w.link.teleporting then w else SendCommand(w, Rtp)
  }

  function TeleportSettled(w: Worker): Worker {
    if w.link.conn.None? || w.stopped then w
    else BalanceSoon(w.(link := w.link.(teleporting := false)), 0)
  }

  function SetTransferring(w: Worker, on: bool): Worker {
    w.(transferring := on)
  }

  function Stop(w: Worker): Worker {
    w.(stopped := true, watch := w.watch.(probes := {}, balanceTimer := None, idleTimer := None))
  }

  function Tick(w: Worker, to: int): Worker {
    w.(now := to)
  }
}
