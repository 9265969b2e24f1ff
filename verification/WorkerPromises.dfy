/** What the worker's fields satisfy between any two stretches of its code, and what each stretch leaves alone. */
module WorkerPromises {
  import opened Gateway
  import opened Options
  import opened PayoutProbes
  import opened PayoutReads
  import opened PayoutSession
  import opened PayoutSystem
  import opened WorkerModel

  ghost predicate Sane(w: Worker) {
    Session(w) && Timed(w) && Probing(w)
  }

  /** The worker by itself: nothing known of the gateway or of what the server decided. */
  function Alone(w: Worker): State {
    State(Tables(map[], map[], map[], map[], {}), w, [])
  }

  lemma EventKeepsSane(w: Worker, e: WorkerEvent)
    requires Sane(w) && WorkerEnabled(Alone(w), e)
    ensures Sane(ApplyWorker(Alone(w), e))
  {
    hide Session, Timed, Probing, WorkerEnabled, ApplyWorker;
    WorkerKeepsSession(Alone(w), e);
    WorkerKeepsTimed(Alone(w), e);
    WorkerKeepsProbing(Alone(w), e);
  }

  // Every event that the worker meets by itself keeps it sane.

  lemma TimeKeepsSane(w: Worker, to: int)
    requires Sane(w) && to >= w.now
    ensures Sane(Tick(w, to))
  {
    hide Sane, Tick;
    EventKeepsSane(w, Ticks(to));
  }

  lemma PollKeepsSane(w: Worker, alive: bool)
    requires Sane(w)
    ensures Sane(PollJobs(w, alive))
  {
    hide Sane, PollJobs;
    EventKeepsSane(w, Polls(alive));
  }

  lemma FailedClaimKeepsSane(w: Worker)
    requires Sane(w) && w.desk.phase.Claiming?
    ensures Sane(EndPoll(w))
  {
    hide Sane, EndPoll;
    EventKeepsSane(w, ClaimFails);
  }

  lemma SendKeepsSane(w: Worker, throws: bool)
    requires Sane(w) && w.desk.phase.Gap? && w.now >= w.desk.phase.wakeAt
    ensures Sane(SendPayout(w, throws))
  {
    hide Sane, SendPayout;
    EventKeepsSane(w, WaitEnds(throws));
  }

  lemma WindowKeepsSane(w: Worker, timer: TimerId)
    requires Sane(w) && timer in w.desk.payTimers && w.now >= w.desk.payTimers[timer]
    ensures Sane(PayoutTimer(w, timer))
  {
    hide Sane, PayoutTimer;
    EventKeepsSane(w, WindowEnds(timer));
  }

  lemma RefusalKeepsSane(w: Worker, refusal: Refusal)
    requires Sane(w) && w.link.conn.Some?
    ensures Sane(SeeRefusal(w, refusal))
  {
    hide Sane, SeeRefusal;
    EventKeepsSane(w, RefusalSeen(refusal));
  }

  lemma CooldownKeepsSane(w: Worker)
    requires Sane(w) && w.link.conn.Some?
    ensures Sane(SeeCooldown(w))
  {
    hide Sane, SeeCooldown;
    EventKeepsSane(w, CooldownSeen);
  }

  lemma ReportEndKeepsSane(w: Worker, delivered: bool)
    requires Sane(w) && w.desk.phase.Reporting?
    ensures Sane(EndReport(w, delivered))
  {
    hide Sane, EndReport;
    EventKeepsSane(w, ReportEnds(delivered));
  }

  lemma OtherJobEndKeepsSane(w: Worker, reconnect: bool)
    requires Sane(w) && w.desk.phase.OtherJob?
    ensures Sane(EndOtherJob(w, reconnect))
  {
    hide Sane, EndOtherJob;
    EventKeepsSane(w, OtherWorkEnds(reconnect));
  }

  lemma BalanceTimerKeepsSane(w: Worker)
    requires Sane(w) && w.watch.balanceTimer.Some? && w.now >= w.watch.balanceTimer.value
    ensures Sane(BalanceTimer(w))
  {
    hide Sane, BalanceTimer;
    EventKeepsSane(w, BalanceDue);
  }

  lemma IdleTimerKeepsSane(w: Worker, gap: int)
    requires Sane(w) && w.watch.idleTimer.Some? && w.now >= w.watch.idleTimer.value && gap >= BALANCE_IDLE_MIN_MS
    ensures Sane(IdleTimer(w, gap))
  {
    hide Sane, IdleTimer;
    EventKeepsSane(w, IdleReadDue(gap));
  }

  lemma PaymentKeepsSane(w: Worker)
    requires Sane(w) && w.link.conn.Some?
    ensures Sane(SeePayment(w))
  {
    hide Sane, SeePayment;
    EventKeepsSane(w, PaymentSeen);
  }

  lemma AnswerKeepsSane(w: Worker)
    requires Sane(w) && w.link.conn.Some?
    ensures Sane(SeeBalance(w))
  {
    hide Sane, SeeBalance;
    EventKeepsSane(w, BalanceSeen);
  }

  lemma ProbeKeepsSane(w: Worker, probe: Probe)
    requires Sane(w) && probe in w.watch.probes && w.now >= probe.sentAt + PROBE_MS
    requires forall timer | timer in w.desk.payTimers :: w.desk.payTimers[timer] >= probe.sentAt + PROBE_MS
    ensures Sane(ProbeTimer(w, probe))
  {
    hide Sane, ProbeTimer;
    EventKeepsSane(w, ProbeDue(probe));
  }

  lemma RelogKeepsSane(w: Worker)
    requires Sane(w)
    ensures Sane(RelogWhenIdle(w))
  {
    hide Sane, RelogWhenIdle;
    EventKeepsSane(w, RelogRetried);
  }

  lemma RelogTimerKeepsSane(w: Worker)
    requires Sane(w)
    ensures Sane(RelogTimer(w))
  {
    hide Sane, RelogTimer;
    EventKeepsSane(w, RelogDue);
  }

  lemma ManualPlayKeepsSane(w: Worker, parked: bool)
    requires Sane(w)
    ensures Sane(CheckManualPlay(w, parked))
  {
    hide Sane, CheckManualPlay;
    EventKeepsSane(w, ManualPlayChecked(parked));
  }

  lemma EndKeepsSane(w: Worker, cause: Cause, gap: int)
    requires Sane(w) && w.link.conn.Some? && GapFits(w.link.relogging, cause, gap)
    ensures Sane(EndConnection(w, gap))
  {
    hide Sane, EndConnection;
    EventKeepsSane(w, ConnectionEnds(cause, gap));
  }

  lemma LoginKeepsSane(w: Worker)
    requires Sane(w) && w.link.conn.None? && w.now >= w.link.reconnectAt
    requires forall timer | timer in w.desk.payTimers :: w.desk.payTimers[timer] >= w.link.reconnectAt
    ensures Sane(OpenConnection(w))
  {
    hide Sane, OpenConnection;
    EventKeepsSane(w, LoginStarts);
  }

  lemma SpawnKeepsSane(w: Worker, gap: int)
    requires Sane(w) && w.link.conn.Some? && !w.link.spawned && gap >= BALANCE_IDLE_MIN_MS
    ensures Sane(Spawn(w, gap))
  {
    hide Sane, Spawn;
    EventKeepsSane(w, Spawns(gap));
  }

  lemma RtpKeepsSane(w: Worker)
    requires Sane(w)
    ensures Sane(SendRtp(w))
  {
    hide Sane, SendRtp;
    EventKeepsSane(w, RtpDue);
  }

  lemma SettledKeepsSane(w: Worker)
    requires Sane(w) && w.link.teleporting
    ensures Sane(TeleportSettled(w))
  {
    hide Sane, TeleportSettled;
    EventKeepsSane(w, RtpSettled);
  }

  lemma TransferKeepsSane(w: Worker, on: bool)
    requires Sane(w)
    ensures Sane(SetTransferring(w, on))
  {
    hide Sane, SetTransferring;
    EventKeepsSane(w, TransferSet(on));
  }

  lemma StopKeepsSane(w: Worker)
    requires Sane(w)
    ensures Sane(Stop(w))
  {
    hide Sane, Stop;
    EventKeepsSane(w, Stops);
  }

  lemma StartKeepsSane(w: Worker, job: Claimed)
    requires Sane(w) && w.desk.phase.Claiming?
    ensures Sane(StartPayout(w, job)) && Sane(StartOtherJob(w))
    ensures StartPayout(w, job).desk.phase.Gap?
            && w.wire.lastCommandAt + COMMAND_GAP_MS <= StartPayout(w, job).desk.phase.wakeAt
    ensures w.watch.balanceReplyUntil <= StartPayout(w, job).desk.phase.wakeAt
  {
    StartPayoutKeepsSession(w, job);
    OtherJobKeepsSession(w);
    StartKeepsTimed(w, job);
    StartKeepsProbing(w, job);
    CapNeverBinds(w);
    hide Session, Timed, Probing;
  }

  lemma ReceiptKeepsSane(w: Worker, payee: Name, displayed: string)
    requires Sane(w)
    ensures Sane(SeeReceipt(w, payee, displayed))
  {
    hide Session, Timed, Probing, Resolve, Disarmed;
    ReceiptKeepsSession(w, payee, displayed);
    ReceiptKeepsProbing(w, payee, displayed);
    if w.desk.pending.Some? {
      ResolveKeepsTimed(w, w.desk.pending.value.timer, Receipt(displayed));
    }
  }

  lemma NewIsSane(now: int)
    requires now >= 0
    ensures Sane(NewWorker(now))
  {
    InitialSession(now);
    InitiallyTimed(now);
    InitiallyProbing(now);
    hide Session, Timed, Probing;
  }

  /** A /pay goes out only as it may: on the claim's connection, after the gap, after every /bal was answered. */
  lemma WritesOnlyWhatItMay(w: Worker, throws: bool)
    requires Sane(w) && w.desk.phase.Gap? && w.now >= w.desk.phase.wakeAt
    ensures var v := SendPayout(w, throws);
            || v.wire.log == w.wire.log
            || (&& |v.wire.log| == |w.wire.log| + 1 && v.wire.log[..|w.wire.log|] == w.wire.log
                && v.wire.log[|w.wire.log|].command == Pay(w.desk.phase.job, w.desk.phase.conn) && PayOk(v, |w.wire.log|))
  {
    if ConnectionLive(w, w.desk.phase.conn) && !AnswerDue(w) {
      WriteKeepsCommands(w);
      WriteAppends(w);
      ReportKeepsLog(WritePayout(w), w.desk.phase.job);
    }
    hide Session, Timed, Probing, WritePayout, Report, PayOk;
    HoldBackKeepsLog(w, ConnectionLive(w, w.desk.phase.conn));
    hide HoldBack;
  }

  lemma WriteAppends(w: Worker)
    requires w.desk.phase.Gap? && w.link.conn.Some? && Commands(WritePayout(w))
    ensures var v := WritePayout(w);
            && |v.wire.log| == |w.wire.log| + 1 && v.wire.log[..|w.wire.log|] == w.wire.log
            && v.wire.log[|w.wire.log|].command == Pay(w.desk.phase.job, w.desk.phase.conn) && PayOk(v, |w.wire.log|)
  {
    hide PayOk;
  }

  lemma ReportKeepsLog(w: Worker, job: Claimed)
    ensures var v := Report(w, job, Failed(false, PayoutFailed), false);
            v.wire.log == w.wire.log && forall i | 0 <= i < |w.wire.log| :: PayOk(w, i) ==> PayOk(v, i)
  {
  }

  lemma HoldBackKeepsLog(w: Worker, retryable: bool)
    requires w.desk.phase.Gap?
    ensures HoldBack(w, retryable).wire.log == w.wire.log
  {
  }

  /** Nothing is asked of the server while a payout waits for its gap or for its answer with the entry armed. */
  lemma AsksOnlyWhenFree(w: Worker, gap: int)
    requires Sane(w)
    ensures w.desk.pending.Some? || w.desk.phase.Gap? ==>
            BalanceTimer(w).wire.log == w.wire.log
            && IdleTimer(w, gap).wire.log == w.wire.log
  {
    var soon, idle := w.(watch := w.watch.(balanceTimer := None)), w.(watch := w.watch.(idleTimer := None));
    assert w.desk.phase.Gap? ==>
           w.desk.payoutPreparing by { hide Timed, Probing, Clocks, Window, Strays, Balances, Commands; }
    hide Sane;
  }

  /** Logging out on a probe, on a relog or for manual play. */
  lemma LogoutsSparePayouts(w: Worker, parked: bool)
    requires Sane(w)
    ensures RelogWhenIdle(w).wire.quits > w.wire.quits || RelogTimer(w).wire.quits > w.wire.quits
            || CheckManualPlay(w, parked).wire.quits > w.wire.quits ==>
              w.desk.pending.None? && w.desk.phase.Idle? && !w.transferring
  {
    hide Timed, Probing, Commands, Window, Strays, Balances, Clocks;
  }

  lemma ProbesSparePayouts(w: Worker, probe: Probe)
    requires Sane(w) && probe in w.watch.probes
    requires forall timer | timer in w.desk.payTimers :: w.desk.payTimers[timer] >= probe.sentAt + PROBE_MS
    ensures w.desk.phase.InFlight? || w.desk.pending.Some? ==> ProbeTimer(w, probe).wire.quits == w.wire.quits
  {
    if w.desk.phase.InFlight? {
      ProbesSpareFlights(w, probe);
    }
    hide Timed, Probing, Commands, Window, Strays, Phases;
  }

  /** However the session ends, an armed entry runs out before the next login may start. */
  lemma EntriesRunOut(w: Worker, cause: Cause, gap: int)
    requires Sane(w) && GapFits(w.link.relogging, cause, gap)
    ensures var v := EndConnection(w, gap);
            v.desk.pending.Some? ==>
                 v.desk.pending.value.timer in v.desk.payTimers
                 && v.desk.payTimers[v.desk.pending.value.timer] < v.link.reconnectAt
  {
    EndKeepsSession(w, cause, gap);
    hide Timed, Probing, Commands, Strays, Balances, Phases, Clocks;
  }

  lemma LoginsFindNothing(w: Worker)
    requires Sane(w) && w.link.conn.None? && w.now >= w.link.reconnectAt
    requires forall timer | timer in w.desk.payTimers :: w.desk.payTimers[timer] >= w.link.reconnectAt
    ensures w.desk.pending.None? && !w.desk.phase.InFlight?
  {
    assert WorkerEnabled(Alone(w), LoginStarts);
    LoginFindsNothingArmed(Alone(w));
    hide Timed, Probing, Session;
  }
}
