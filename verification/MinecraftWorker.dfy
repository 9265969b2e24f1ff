/**
 * The payout worker as the object it is: fields updated in place, one method for each stretch of code
 * that runs without waiting. Each does to the object what its function in WorkerModel says, and the
 * methods that the outside world starts keep `Valid` and say what they leave alone.
 */
module MinecraftWorker {
  import opened Gateway
  import opened MoneyReading
  import opened Options
  import opened PayoutProbes
  import opened PayoutReads
  import opened PayoutSession
  import opened WorkerModel
  import opened WorkerPromises

  class Worker {
    var now: int
    var stopped: bool
    var transferring: bool

    var conn: Option<ConnId>
    var spawned: bool
    var teleporting: bool
    var nextConn: ConnId
    var reconnectAt: int
    var relogDue: bool
    var relogging: bool

    var awaitingAnswer: bool
    var lastBalanceSentAt: int
    var lastBalanceAnswerAt: int
    var balanceReplyUntil: int
    var unansweredProbes: nat
    var probes: set<Probe>
    var balanceTimer: Option<int>
    var idleTimer: Option<int>

    var polling: bool
    var payoutPreparing: bool
    var payoutCooldownSeen: bool
    var pendingPayout: Option<Pending>
    var payTimers: map<TimerId, int>
    var phase: Phase

    // What has left the process: commands on the wire, requests to the gateway, logouts.
    var lastCommandAt: int
    var log: seq<Sent>
    var posted: seq<Result>
    var claimsSent: seq<EventId>
    var answers: seq<int>
    var quits: nat
    var nextId: nat

    ghost function LinkNow(): Link
      reads this`conn, this`spawned, this`teleporting, this`nextConn, this`reconnectAt, this`relogDue, this`relogging
    {
      Link(conn, spawned, teleporting, nextConn, reconnectAt, relogDue, relogging)
    }

    ghost function WatchNow(): Watch
      reads this`awaitingAnswer, this`lastBalanceSentAt, this`lastBalanceAnswerAt, this`balanceReplyUntil,
        this`unansweredProbes, this`probes, this`balanceTimer, this`idleTimer
    {
      Watch(awaitingAnswer, lastBalanceSentAt, lastBalanceAnswerAt, balanceReplyUntil, unansweredProbes, probes,
            balanceTimer, idleTimer)
    }

    ghost function DeskNow(): Desk
      reads this`polling, this`payoutPreparing, this`payoutCooldownSeen, this`pendingPayout, this`payTimers, this`phase
    {
      Desk(polling, payoutPreparing, payoutCooldownSeen, pendingPayout, payTimers, phase)
    }

    ghost function WireNow(): Wire
      reads this`lastCommandAt, this`log, this`posted, this`claimsSent, this`answers, this`quits, this`nextId
    {
      Wire(lastCommandAt, log, posted, claimsSent, answers, quits, nextId)
    }

    ghost function View(): WorkerModel.Worker
      reads this
    {
      WorkerModel.Worker(now, stopped, transferring, LinkNow(), WatchNow(), DeskNow(), WireNow())
    }

    ghost predicate Valid()
      reads this
    {
      Sane(View())
    }

    /** No payment window is due before this. */
    ghost predicate NoWindowBefore(at: int)
      reads this
    {
      forall timer | timer in payTimers :: payTimers[timer] >= at
    }

    constructor (start: int)
      requires start >= 0
      ensures View() == NewWorker(start) && Valid()
    {
      now, stopped, transferring := start, false, false;
      conn, spawned, teleporting, nextConn, reconnectAt, relogDue, relogging := None, false, false, 0, start, false,
        false;
      awaitingAnswer, lastBalanceSentAt, lastBalanceAnswerAt, balanceReplyUntil := false, 0, 0, 0;
      unansweredProbes, probes, balanceTimer, idleTimer := 0, {}, None, None;
      polling, payoutPreparing, payoutCooldownSeen := false, false, false;
      pendingPayout, payTimers, phase := None, map[], Idle;
      lastCommandAt, log, posted, claimsSent, answers, quits, nextId := 0, [], [], [], [], 0, 0;
      new;
      NewIsSane(start);
      hide Sane;
    }

    method PassTime(to: int)
      requires Valid() && to >= now
      modifies this
      ensures Valid() && View() == Tick(old(View()), to)
    {
      ghost var w := View();
      now := to;
      hide Sane;
      TimeKeepsSane(w, to);
    }

    /** A fresh name for an event or a timer. */
    method FreshId() returns (id: nat)
      modifies this
      ensures id == old(nextId) && View() == old(View()).(wire := old(View()).wire.(nextId := id + 1))
    {
      id := nextId;
      nextId := nextId + 1;
    }

    // Claiming a job.

    /** Asks for work only when nothing stands against it: no poll, relog, teleport or transfer, and /bal answered. */
    method PollJobs(alive: bool)
      requires Valid()
      modifies this
      ensures Valid() && View() == WorkerModel.PollJobs(old(View()), alive)
      ensures claimsSent != old(claimsSent) ==>
                old(!polling && !stopped && !transferring && !relogDue && !teleporting && !awaitingAnswer) && alive
    {
      ghost var w := View();
      var blocked := conn.None? || !spawned || stopped || transferring || relogDue || teleporting || !alive
          || awaitingAnswer;
      assert blocked <==> !MayClaim(w, alive);
      hide Sane, MayClaim;
      if !polling && !blocked {
        SendClaim(conn.value);
      }
      PollKeepsSane(w, alive);
    }

    method SendClaim(on: ConnId)
      modifies this`polling, this`phase, this`claimsSent, this`nextId
      ensures View() == old(View()).(
                desk := old(View()).desk.(polling := true, phase := Claiming(old(nextId), on)),
                wire := old(View()).wire.(nextId := old(nextId) + 1, claimsSent := old(claimsSent) + [old(nextId)]))
    {
      var event := NoteClaim();
      hide LinkNow, WatchNow, WireNow;
      polling := true;
      phase := Claiming(event, on);
    }

    method NoteClaim() returns (event: EventId)
      modifies this`claimsSent, this`nextId
      ensures event == old(nextId)
      ensures View() == old(View()).(
                wire := old(View()).wire.(nextId := event + 1, claimsSent := old(claimsSent) + [event]))
    {
      hide LinkNow, WatchNow, DeskNow;
      event := nextId;
      claimsSent := claimsSent + [event];
      nextId := nextId + 1;
    }

    method EndPoll()
      modifies this
      ensures View() == WorkerModel.EndPoll(old(View()))
    {
      polling := false;
      phase := Idle;
    }

    method ClaimFails()
      requires Valid() && phase.Claiming?
      modifies this
      ensures Valid() && View() == WorkerModel.EndPoll(old(View()))
    {
      ghost var w := View();
      EndPoll();
      hide Sane;
      FailedClaimKeepsSane(w);
    }

    // Paying.

    method BalanceSoon(delay: int)
      modifies this
      ensures View() == WorkerModel.BalanceSoon(old(View()), delay)
    {
      if balanceTimer.None? && !stopped {
        balanceTimer := Some(now + delay);
      }
    }

    /** Up to the wait: at least the command gap after the last command, and past an open /bal. */
    method StartPayout(job: Claimed)
      requires Valid() && phase.Claiming?
      modifies this
      ensures Valid() && View() == WorkerModel.StartPayout(old(View()), job)
      ensures phase.Gap? && lastCommandAt + COMMAND_GAP_MS <= phase.wakeAt && balanceReplyUntil <= phase.wakeAt
      ensures log == old(log)
    {
      ghost var w := View();
      BalanceSoon(BALANCE_AFTER_MOVE_MS + PAYOUT_CONFIRM_MS);
      hide Sane;
      WaitForGap(job);
      StartKeepsSane(w, job);
    }

    method WaitForGap(job: Claimed)
      requires phase.Claiming?
      modifies this
      ensures View() == old(View()).(desk := old(View()).desk.(
                payoutPreparing := true, phase := Gap(job, old(phase.conn), Max(ClearAt(old(View())), now))))
    {
      var clearAt := Min(Max(lastCommandAt + COMMAND_GAP_MS, balanceReplyUntil), now + BALANCE_REPLY_MS + COMMAND_GAP_MS);
      payoutPreparing := true;
      phase := Gap(job, phase.conn, if clearAt <= now then now else clearAt);
    }

    method SendCommand(command: Command)
      requires conn.Some?
      modifies this
      ensures View() == WorkerModel.SendCommand(old(View()), command)
    {
      lastCommandAt := now;
      log := log + [Sent(command, conn.value, now, lastBalanceAnswerAt)];
    }

    method ArmReceipt(payee: Name)
      modifies this
      ensures View() == WorkerModel.ArmReceipt(old(View()), payee)
    {
      var timer := FreshId();
      payTimers := payTimers[timer := now + PAYOUT_CONFIRM_MS];
      pendingPayout := Some(Pending(timer, payee, |log|));
    }

    method CompleteJob(job: Claimed, outcome: Outcome, reconnect: bool)
      modifies this
      ensures View() == Report(old(View()), job, outcome, reconnect)
    {
      var event := FreshId();
      posted := posted + [Result(event, job.ref, job.token, outcome)];
      phase := Reporting(reconnect);
    }

    /**
     * After the wait, with both checks made once more. The one command it may write is this job's /pay, and
     * that satisfies `PayOk`.
     */
    method SendPayout(throws: bool)
      requires Valid() && phase.Gap? && now >= phase.wakeAt
      modifies this
      ensures Valid() && View() == WorkerModel.SendPayout(old(View()), throws)
      ensures log == old(log)
              || (&& |log| == |old(log)| + 1 && log[..|old(log)|] == old(log)
                  && log[|old(log)|].command == Pay(old(phase.job), old(phase.conn)) && PayOk(View(), |old(log)|))
      ensures quits == old(quits)
    {
      ghost var w := View();
      var job := phase.job;
      if conn != Some(phase.conn) || stopped || !spawned || transferring {
        HoldBack(job, false);
      } else if awaitingAnswer || lastBalanceSentAt > lastBalanceAnswerAt {
        HoldBack(job, true);
      } else {
        WritePayout();
        if throws {
          CompleteJob(job, Failed(false, PayoutFailed), false);
        }
      }
      hide Sane, WorkerModel.HoldBack, WorkerModel.WritePayout, Report, PayOk;
      WritesOnlyWhatItMay(w, throws);
      SendKeepsSane(w, throws);
    }

    method HoldBack(job: Claimed, retryable: bool)
      requires phase.Gap? && phase.job == job
      modifies this
      ensures View() == WorkerModel.HoldBack(old(View()), retryable) && quits == old(quits)
    {
      hide LinkNow, WatchNow;
      EndWait(retryable);
      CompleteJob(job, Failed(retryable, NotSent), false);
    }

    method EndWait(gated: bool)
      modifies this`payoutPreparing, this`awaitingAnswer
      ensures View() == old(View()).(
                desk := old(View()).desk.(payoutPreparing := false),
                watch := old(View()).watch.(awaitingAnswer := old(View()).watch.awaitingAnswer || gated))
    {
      hide LinkNow, WireNow;
      payoutPreparing := false;
      if gated {
        awaitingAnswer := true;
      }
    }

    /** The entry stands before the command goes out: the answer may come at once. */
    method WritePayout()
      requires phase.Gap? && conn.Some?
      modifies this
      ensures View() == WorkerModel.WritePayout(old(View())) && quits == old(quits)
    {
      var job, claimedOn, sent, timer := phase.job, phase.conn, |log|, nextId;
      hide LinkNow, WatchNow;
      ArmReceipt(job.payee);
      StopPreparing();
      SendCommand(Pay(job, claimedOn));
      phase := InFlight(job, timer, sent);
    }

    method StopPreparing()
      modifies this`payoutPreparing, this`payoutCooldownSeen
      ensures View() == old(View()).(
                desk := old(View()).desk.(payoutPreparing := false, payoutCooldownSeen := false))
    {
      hide LinkNow, WatchNow, WireNow;
      payoutPreparing := false;
      payoutCooldownSeen := false;
    }

    /** From the answer on. */
    method Conclude(job: Claimed, answer: Answer)
      modifies this
      ensures View() == WorkerModel.Conclude(old(View()), job, answer)
    {
      match answer {
        case RefusedFor(NoFunds) => CompleteJob(job, Failed(false, InsufficientFunds), false);
        case RefusedFor(PaymentsDisabled) => CompleteJob(job, Failed(false, NotSent), false);
        case NoAnswer =>
          if payoutCooldownSeen {
            payoutCooldownSeen := false;
            CompleteJob(job, Failed(true, NotSent), false);
          } else {
            CompleteJob(job, Failed(false, Unconfirmed), true);
          }
        case Receipt(displayed) =>
          if !IsAmountText(job.amount) || !CoversRequestedAmount(displayed, job.amount) {
            CompleteJob(job, Failed(false, AmountMismatch), false);
          } else {
            CompleteJob(job, Completed, false);
          }
      }
    }

    /** The promise behind a timer settles; if a payout awaits it, that payout goes on. */
    method Resolve(timer: TimerId, answer: Answer)
      modifies this
      ensures View() == WorkerModel.Resolve(old(View()), timer, answer)
    {
      if phase.InFlight? && phase.timer == timer {
        Conclude(phase.job, answer);
      }
    }

    method Disarm(timer: TimerId)
      modifies this
      ensures View() == Disarmed(old(View()), timer)
    {
      payTimers := payTimers - {timer};
      pendingPayout := None;
    }

    /** The window is over: no entry is left, whichever payout armed it, and nothing is sent or logged out. */
    method PayoutTimer(timer: TimerId)
      requires Valid() && timer in payTimers && now >= payTimers[timer]
      modifies this
      ensures Valid() && View() == WorkerModel.PayoutTimer(old(View()), timer)
      ensures pendingPayout.None? && timer !in payTimers && log == old(log) && quits == old(quits)
    {
      ghost var w := View();
      Disarm(timer);
      Resolve(timer, NoAnswer);
      hide Sane, WorkerModel.Resolve;
      ResolveLeaves(Disarmed(w, timer), timer, NoAnswer);
      WindowKeepsSane(w, timer);
    }

    method SettlePending(answer: Answer)
      modifies this
      ensures View() == WorkerModel.SettlePending(old(View()), answer)
    {
      if pendingPayout.Some? {
        var timer := pendingPayout.value.timer;
        Disarm(timer);
        Resolve(timer, answer);
      }
    }

    method SeeRefusal(refusal: Refusal)
      requires Valid() && conn.Some?
      modifies this
      ensures Valid() && View() == WorkerModel.SeeRefusal(old(View()), refusal)
      ensures pendingPayout.None? && log == old(log) && quits == old(quits)
    {
      ghost var w := View();
      SettlePending(RefusedFor(refusal));
      hide Sane, WorkerModel.SettlePending;
      SettleLeaves(w, RefusedFor(refusal));
      RefusalKeepsSane(w, refusal);
    }

    method SeeCooldown()
      requires Valid() && conn.Some?
      modifies this
      ensures Valid() && View() == WorkerModel.SeeCooldown(old(View()))
    {
      ghost var w := View();
      if pendingPayout.Some? {
        payoutCooldownSeen := true;
      }
      hide Sane;
      CooldownKeepsSane(w);
    }

    /** A receipt for another player settles nothing. */
    method SeeReceipt(payee: Name, displayed: string)
      requires Valid()
      modifies this
      ensures Valid() && View() == WorkerModel.SeeReceipt(old(View()), payee, displayed)
      ensures old(pendingPayout).Some? && old(pendingPayout).value.payee != payee ==> View() == old(View())
      ensures log == old(log) && quits == old(quits)
    {
      ghost var w := View();
      if pendingPayout.Some? && pendingPayout.value.payee == payee {
        SettlePending(Receipt(displayed));
      }
      hide Sane, WorkerModel.SettlePending;
      SettleLeaves(w, Receipt(displayed));
      ReceiptKeepsSane(w, payee, displayed);
    }

    method CycleConnection()
      modifies this
      ensures View() == WorkerModel.CycleConnection(old(View()), true)
    {
      if conn.Some? {
        quits := quits + 1;
      }
    }

    /** After the report the worker reconnects only for a payout without an answer, and never with an entry armed. */
    method EndReport(delivered: bool)
      requires Valid() && phase.Reporting?
      modifies this
      ensures Valid() && View() == WorkerModel.EndReport(old(View()), delivered)
      ensures quits > old(quits) ==> delivered && old(phase).reconnect && pendingPayout.None?
    {
      ghost var w := View();
      if delivered && phase.reconnect {
        CycleConnection();
      }
      EndPoll();
      ReportsEndUnarmed(w);
      hide Sane;
      ReportEndKeepsSane(w, delivered);
    }

    method StartOtherJob()
      requires Valid() && phase.Claiming?
      modifies this
      ensures Valid() && View() == WorkerModel.StartOtherJob(old(View()))
    {
      ghost var w := View();
      phase := OtherJob;
      hide Sane;
      StartKeepsSane(w, Claimed(OtherMoney, 0, "", ""));
    }

    method EndOtherJob(reconnect: bool)
      requires Valid() && phase.OtherJob?
      modifies this
      ensures Valid() && View() == WorkerModel.EndOtherJob(old(View()), reconnect)
      ensures quits > old(quits) ==> reconnect
    {
      ghost var w := View();
      if reconnect {
        CycleConnection();
      }
      EndPoll();
      hide Sane;
      OtherJobEndKeepsSane(w, reconnect);
    }

    // Reading the balance, and noticing silence.

    method RequestBalance(idle: bool)
      modifies this
      ensures View() == WorkerModel.RequestBalance(old(View()), idle)
    {
      if conn.None? || !spawned || stopped {
        return;
      }
      if pendingPayout.Some? || payoutPreparing || transferring || teleporting {
        BalanceSoon(BALANCE_AFTER_MOVE_MS);
        return;
      }
      ExpectReply();
      SendCommand(Bal(idle));
      AwaitAnswer(conn.value, lastBalanceSentAt);
    }

    method ExpectReply()
      modifies this`balanceReplyUntil, this`lastBalanceSentAt
      ensures View() == old(View()).(
                watch := old(View()).watch.(balanceReplyUntil := now + BALANCE_REPLY_MS, lastBalanceSentAt := now))
    {
      hide LinkNow, DeskNow, WireNow;
      balanceReplyUntil := now + BALANCE_REPLY_MS;
      lastBalanceSentAt := now;
    }

    method AwaitAnswer(on: ConnId, sentAt: int)
      modifies this
      ensures View() == old(View()).(watch := old(View()).watch.(probes := old(probes) + {Probe(old(nextId), on,
              sentAt)}),
                                     wire := old(View()).wire.(nextId := old(nextId) + 1))
    {
      probes := probes + {Probe(nextId, on, sentAt)};
      nextId := nextId + 1;
    }

    /** No /bal goes out in front of a /pay that waits for its gap, nor while one waits for its answer. */
    method BalanceTimer()
      requires Valid() && balanceTimer.Some? && now >= balanceTimer.value
      modifies this
      ensures Valid() && View() == WorkerModel.BalanceTimer(old(View()))
      ensures old(pendingPayout.Some? || phase.Gap?) ==> log == old(log)
    {
      ghost var w := View();
      balanceTimer := None;
      RequestBalance(false);
      hide Sane, WorkerModel.RequestBalance;
      AsksOnlyWhenFree(w, 0);
      BalanceTimerKeepsSane(w);
    }

    method IdleTimer(gap: int)
      requires Valid() && idleTimer.Some? && now >= idleTimer.value && gap >= BALANCE_IDLE_MIN_MS
      modifies this
      ensures Valid() && View() == WorkerModel.IdleTimer(old(View()), gap)
      ensures old(pendingPayout.Some? || phase.Gap?) ==> log == old(log)
    {
      ghost var w := View();
      idleTimer := None;
      RequestBalance(true);
      ArmIdle(gap);
      hide Sane, WorkerModel.RequestBalance, WorkerModel.ArmIdle;
      AsksOnlyWhenFree(w, gap);
      IdleTimerKeepsSane(w, gap);
    }

    method ArmIdle(gap: int)
      modifies this
      ensures View() == WorkerModel.ArmIdle(old(View()), gap)
    {
      if !stopped {
        idleTimer := Some(now + gap);
      }
    }

    method SeePayment()
      requires Valid() && conn.Some?
      modifies this
      ensures Valid() && View() == WorkerModel.SeePayment(old(View()))
    {
      ghost var w := View();
      BalanceSoon(BALANCE_AFTER_MOVE_MS);
      hide Sane, WorkerModel.BalanceSoon;
      PaymentKeepsSane(w);
    }

    method SeeBalance()
      requires Valid() && conn.Some?
      modifies this
      ensures Valid() && View() == WorkerModel.SeeBalance(old(View()))
    {
      ghost var w := View();
      if now < balanceReplyUntil {
        TakeAnswer();
        answers := answers + [now];
      }
      hide Sane;
      AnswerKeepsSane(w);
    }

    method TakeAnswer()
      modifies this`balanceReplyUntil, this`lastBalanceAnswerAt, this`awaitingAnswer, this`unansweredProbes
      ensures View() == old(View()).(watch := old(View()).watch.(
                balanceReplyUntil := 0, lastBalanceAnswerAt := now, awaitingAnswer := false, unansweredProbes := 0))
    {
      CountProbes(false);
      hide LinkNow, DeskNow, WireNow;
      balanceReplyUntil := 0;
      lastBalanceAnswerAt := now;
    }

    /** Starts the count of unanswered probes over; `waiting` is whether jobs are held until one is answered. */
    method CountProbes(waiting: bool)
      modifies this`awaitingAnswer, this`unansweredProbes
      ensures View() == old(View()).(watch := old(View()).watch.(awaitingAnswer := waiting, unansweredProbes := 0))
    {
      hide LinkNow, DeskNow, WireNow;
      awaitingAnswer := waiting;
      unansweredProbes := 0;
    }

    /** Silence never logs the worker out while a payout is in flight or an entry armed. */
    method ProbeTimer(probe: Probe)
      requires Valid() && probe in probes && now >= probe.sentAt + PROBE_MS && NoWindowBefore(probe.sentAt + PROBE_MS)
      modifies this
      ensures Valid() && View() == WorkerModel.ProbeTimer(old(View()), probe)
      ensures old(phase.InFlight? || pendingPayout.Some?) ==> quits == old(quits)
    {
      ghost var w := View();
      probes := probes - {probe};
      if lastBalanceAnswerAt < probe.sentAt && conn == Some(probe.conn) && !stopped {
        CountSilence();
      }
      hide Sane, WorkerModel.CountSilence;
      ProbesSparePayouts(w, probe);
      ProbeKeepsSane(w, probe);
    }

    method CountSilence()
      modifies this
      ensures View() == WorkerModel.CountSilence(old(View()))
    {
      hide LinkNow, DeskNow, WireNow;
      NoteSilence();
      if unansweredProbes >= COMMAND_PROBE_LIMIT {
        CycleConnection();
      } else {
        BalanceSoon(COMMAND_PROBE_GAP_MS);
      }
    }

    method NoteSilence()
      modifies this`awaitingAnswer, this`unansweredProbes
      ensures unansweredProbes == old(unansweredProbes) + 1
      ensures View() == old(View()).(
                watch := old(View()).watch.(awaitingAnswer := true, unansweredProbes := old(unansweredProbes) + 1))
    {
      hide LinkNow, DeskNow, WireNow;
      awaitingAnswer := true;
      unansweredProbes := unansweredProbes + 1;
    }

    // Logging out on purpose: never with a payout about to go, in flight, or an entry armed.

    method LeaveWhenIdle()
      modifies this
      ensures View() == WorkerModel.RelogWhenIdle(old(View()))
    {
      if stopped || !relogDue || relogging || conn.None? {
        return;
      }
      if polling || pendingPayout.Some? || transferring || teleporting || now < balanceReplyUntil {
        return;
      }
      relogging := true;
      CycleConnection();
    }

    method RelogWhenIdle()
      requires Valid()
      modifies this
      ensures Valid() && View() == WorkerModel.RelogWhenIdle(old(View()))
      ensures quits > old(quits) ==> pendingPayout.None? && phase.Idle? && !transferring
    {
      ghost var w := View();
      LeaveWhenIdle();
      LogoutsSparePayouts(w, false);
      hide Sane, WorkerModel.RelogTimer, WorkerModel.CheckManualPlay;
      RelogKeepsSane(w);
    }

    method RelogTimer()
      requires Valid()
      modifies this
      ensures Valid() && View() == WorkerModel.RelogTimer(old(View()))
      ensures quits > old(quits) ==> pendingPayout.None? && phase.Idle? && !transferring
    {
      ghost var w := View();
      relogDue := true;
      LeaveWhenIdle();
      LogoutsSparePayouts(w, false);
      hide Sane, WorkerModel.CheckManualPlay;
      RelogTimerKeepsSane(w);
    }

    method CheckManualPlay(parked: bool)
      requires Valid()
      modifies this
      ensures Valid() && View() == WorkerModel.CheckManualPlay(old(View()), parked)
      ensures quits > old(quits) ==> pendingPayout.None? && phase.Idle? && !transferring
    {
      ghost var w := View();
      if parked && !(pendingPayout.Some? || payoutPreparing || transferring || polling) {
        CycleConnection();
      }
      LogoutsSparePayouts(w, parked);
      hide Sane, WorkerModel.RelogTimer, WorkerModel.RelogWhenIdle;
      ManualPlayKeepsSane(w, parked);
    }

    // The connection's life.

    /** However it ends, an armed entry runs out before the next login may start. */
    method EndConnection(cause: Cause, gap: int)
      requires Valid() && conn.Some? && GapFits(relogging, cause, gap)
      modifies this
      ensures Valid() && View() == WorkerModel.EndConnection(old(View()), gap)
      ensures pendingPayout.Some? ==>
                pendingPayout.value.timer in payTimers && payTimers[pendingPayout.value.timer] < reconnectAt
    {
      ghost var w := View();
      ClearTimers();
      ForgetConnection(gap);
      hide Sane;
      EntriesRunOut(w, cause, gap);
      EndKeepsSane(w, cause, gap);
    }

    method ClearTimers()
      modifies this`probes, this`balanceTimer, this`idleTimer, this`balanceReplyUntil, this`awaitingAnswer
      ensures View() == old(View()).(watch := old(View()).watch.(
                probes := {}, balanceTimer := None, idleTimer := None, balanceReplyUntil := 0, awaitingAnswer := false))
    {
      DropTimers();
      hide LinkNow, DeskNow, WireNow;
      balanceReplyUntil := 0;
      awaitingAnswer := false;
    }

    method ForgetConnection(gap: int)
      modifies this`conn, this`spawned, this`teleporting, this`relogDue, this`relogging, this`reconnectAt
      ensures View() == old(View()).(link := Link(None, false, false, nextConn, now + gap, false, false))
    {
      ClearRelog();
      LeaveWorld();
      hide WatchNow, DeskNow, WireNow;
      reconnectAt := now + gap;
    }

    method ClearRelog()
      modifies this`relogDue, this`relogging
      ensures View() == old(View()).(link := old(View()).link.(relogDue := false, relogging := false))
    {
      hide WatchNow, DeskNow, WireNow;
      relogDue := false;
      relogging := false;
    }

    method LeaveWorld()
      modifies this`conn, this`spawned, this`teleporting
      ensures View() == old(View()).(link := old(View()).link.(conn := None, spawned := false, teleporting := false))
    {
      hide WatchNow, DeskNow, WireNow;
      conn := None;
      spawned := false;
      teleporting := false;
    }

    /** By the time a login starts no entry is armed and no payout waits for an answer. */
    method OpenConnection()
      requires Valid() && conn.None? && now >= reconnectAt && NoWindowBefore(reconnectAt)
      modifies this
      ensures Valid() && View() == WorkerModel.OpenConnection(old(View()))
      ensures pendingPayout.None? && !phase.InFlight?
    {
      ghost var w := View();
      if !stopped {
        Connect();
      }
      hide Sane;
      LoginsFindNothing(w);
      LoginKeepsSane(w);
    }

    method Connect()
      modifies this`conn, this`nextConn
      ensures View() == old(View()).(link := old(View()).link.(conn := Some(old(nextConn)),
              nextConn := old(nextConn) + 1))
    {
      hide WatchNow, DeskNow, WireNow;
      conn := Some(nextConn);
      nextConn := nextConn + 1;
    }

    method Spawn(gap: int)
      requires Valid() && conn.Some? && !spawned && gap >= BALANCE_IDLE_MIN_MS
      modifies this
      ensures Valid() && View() == WorkerModel.Spawn(old(View()), gap)
    {
      ghost var w := View();
      CountProbes(true);
      EnterWorld();
      ArmIdle(gap);
      hide Sane;
      SpawnKeepsSane(w, gap);
    }

    method EnterWorld()
      modifies this`spawned, this`teleporting
      ensures View() == old(View()).(link := old(View()).link.(spawned := true, teleporting := true))
    {
      hide WatchNow, DeskNow, WireNow;
      spawned := true;
      teleporting := true;
    }

    method SendRtp()
      requires Valid()
      modifies this
      ensures Valid() && View() == WorkerModel.SendRtp(old(View()))
    {
      ghost var w := View();
      if conn.Some? && spawned && !stopped && teleporting {
        SendCommand(Rtp);
      }
      hide Sane;
      RtpKeepsSane(w);
    }

    method TeleportSettled()
      requires Valid() && teleporting
      modifies this
      ensures Valid() && View() == WorkerModel.TeleportSettled(old(View()))
    {
      ghost var w := View();
      if conn.Some? && !stopped {
        teleporting := false;
        BalanceSoon(0);
      }
      hide Sane;
      SettledKeepsSane(w);
    }

    method SetTransferring(on: bool)
      requires Valid()
      modifies this
      ensures Valid() && View() == WorkerModel.SetTransferring(old(View()), on)
    {
      ghost var w := View();
      transferring := on;
      hide Sane;
      TransferKeepsSane(w, on);
    }

    method DropTimers()
      modifies this`probes, this`balanceTimer, this`idleTimer
      ensures View() == old(View()).(watch := old(View()).watch.(probes := {}, balanceTimer := None, idleTimer := None))
    {
      hide LinkNow, DeskNow, WireNow;
      probes := {};
      balanceTimer := None;
      idleTimer := None;
    }

    method Stop()
      requires Valid()
      modifies this
      ensures Valid() && View() == WorkerModel.Stop(old(View()))
    {
      ghost var w := View();
      stopped := true;
      DropTimers();
      hide Sane;
      StopKeepsSane(w);
    }
  }

  lemma ResolveLeaves(w: WorkerModel.Worker, timer: TimerId, answer: Answer)
    ensures var v := WorkerModel.Resolve(w, timer, answer);
            v.desk.pending == w.desk.pending && v.desk.payTimers == w.desk.payTimers && v.wire.log == w.wire.log
              && v.wire.quits == w.wire.quits
  {
    hide Conclusion;
  }

  lemma SettleLeaves(w: WorkerModel.Worker, answer: Answer)
    ensures var v := WorkerModel.SettlePending(w, answer);
                v.desk.pending.None? && v.wire.log == w.wire.log
                && v.wire.quits == w.wire.quits
  {
    if w.desk.pending.Some? {
      ResolveLeaves(Disarmed(w, w.desk.pending.value.timer), w.desk.pending.value.timer, answer);
    }
    hide WorkerModel.Resolve;
  }

  /** A payout that is to be followed by a reconnect has left no entry. */
  lemma ReportsEndUnarmed(w: WorkerModel.Worker)
    requires Sane(w)
    ensures w.desk.phase == Reporting(true) ==> w.desk.pending.None?
  {
    hide Timed, Probing, Clocks, Phases, Strays, Balances, Commands;
  }
}
