/**
 * What the worker's own fields keep over every run: when it may write a /pay, when it may log out,
 * and that no payout outlives the session it was written in.
 */
module PayoutSession {
  import opened Gateway
  import opened Options
  import opened PayoutSystem
  import opened WorkerModel

  predicate Clocks(w: Worker) {
    && 0 <= w.wire.lastCommandAt <= w.now
    && 0 <= w.watch.lastBalanceSentAt <= w.now
    && 0 <= w.watch.lastBalanceAnswerAt <= w.now
    && 0 <= w.watch.balanceReplyUntil <= w.now + BALANCE_REPLY_MS
    && (w.link.conn.Some? ==> w.link.conn.value < w.link.nextConn)
    && (w.link.conn.None? ==> !w.link.spawned)
  }

  /** The connection the running poll claimed its job on is still the current one. */
  predicate OnItsConnection(w: Worker) {
    && (w.desk.phase.Claiming? || w.desk.phase.Gap?)
    && w.link.conn == Some(w.desk.phase.conn)
  }

  predicate Phases(w: Worker) {
    && (w.desk.polling <==> !w.desk.phase.Idle?)
    && (w.desk.payoutPreparing <==> w.desk.phase.Gap?)
    && (w.link.relogging ==> w.link.relogDue && w.desk.phase.Idle? && w.desk.pending.None?)
    && (w.desk.phase.Claiming? || w.desk.phase.Gap? ==> w.desk.phase.conn < w.link.nextConn)
    && (OnItsConnection(w) ==> w.link.spawned && !w.link.teleporting)
    && (OnItsConnection(w) && w.desk.phase.Gap? ==> w.wire.lastCommandAt + COMMAND_GAP_MS <= w.desk.phase.wakeAt)
  }

  /** A write has thrown at some point. */
  predicate Threw(w: Worker) {
    exists k :: 0 <= k < |w.wire.posted| && w.wire.posted[k].outcome == Failed(false, PayoutFailed)
  }

  predicate ArmedFor(w: Worker, timer: TimerId, sent: nat) {
    && timer in w.desk.payTimers && sent < |w.wire.log| && w.wire.log[sent].command.Pay?
    && w.desk.payTimers[timer] == w.wire.log[sent].at + PAYOUT_CONFIRM_MS
  }

  /** A /pay and its timer belong to the current session, or the timer runs out before the next one. */
  predicate InItsSession(w: Worker, timer: TimerId, sent: nat) {
    && ArmedFor(w, timer, sent)
    && (w.link.conn.Some? ==> w.wire.log[sent].conn == w.link.conn.value)
    && (w.link.conn.None? ==> w.desk.payTimers[timer] < w.link.reconnectAt)
  }

  predicate EntryOk(w: Worker, entry: Pending) {
    InItsSession(w, entry.timer, entry.sent) && w.wire.log[entry.sent].command.job.payee == entry.payee
  }

  predicate Window(w: Worker) {
    && (w.desk.pending.Some? ==> EntryOk(w, w.desk.pending.value))
    && (w.desk.phase.InFlight? ==>
          && InItsSession(w, w.desk.phase.timer, w.desk.phase.sent)
             && w.wire.log[w.desk.phase.sent].command.job == w.desk.phase.job
          && (w.desk.pending.Some? ==>
               w.desk.pending.value.timer == w.desk.phase.timer
               && w.desk.pending.value.sent == w.desk.phase.sent))
    && (forall timer | timer in w.desk.payTimers :: timer < w.wire.nextId)
    && (w.desk.phase == Reporting(true) ==> w.desk.pending.None?)
  }

  /** Only a thrown write leaves an entry without its payout, a payout without its entry, or a stray timer. */
  predicate Strays(w: Worker) {
    && (forall timer | timer in w.desk.payTimers :: (w.desk.phase.InFlight? && timer == w.desk.phase.timer) || Threw(w))
    && (w.desk.phase.InFlight? && w.desk.pending.None? ==> Threw(w))
  }

  predicate Balances(w: Worker) {
    && (forall probe | probe in w.watch.probes :: probe.sentAt <= w.watch.lastBalanceSentAt)
    && (w.desk.pending.Some? ==> w.watch.lastBalanceSentAt <= w.watch.lastBalanceAnswerAt)
    && (w.link.spawned && !w.watch.awaitingAnswer ==> w.watch.lastBalanceAnswerAt in w.wire.answers)
  }

  /** This process has not asked for its balance yet, so it pays nobody. */
  predicate NotAskedYet(w: Worker) {
    w.watch.lastBalanceSentAt == 0 && w.watch.balanceReplyUntil == 0 && (w.link.spawned ==> w.watch.awaitingAnswer)
  }

  /**
   * A /pay went out on the connection its job was claimed on, a full gap after every earlier command,
   * and after an answer to every earlier /bal.
   */
  predicate PayOk(w: Worker, i: int)
    requires 0 <= i < |w.wire.log|
  {
    w.wire.log[i].command.Pay? ==>
      && w.wire.log[i].conn == w.wire.log[i].command.claimedOn
      && w.wire.log[i].answered in w.wire.answers && w.wire.log[i].answered <= w.wire.log[i].at
      && (forall j | 0 <= j < i :: w.wire.log[j].at + COMMAND_GAP_MS <= w.wire.log[i].at)
      && (forall j | 0 <= j < i && w.wire.log[j].command.Bal? :: w.wire.log[j].at <= w.wire.log[i].answered)
  }

  predicate Commands(w: Worker) {
    && (forall i | 0 <= i < |w.wire.log| :: PayOk(w, i))
    && (forall i | 0 <= i < |w.wire.log| :: w.wire.log[i].at <= w.now)
    && (!NotAskedYet(w) ==> forall i | 0 <= i < |w.wire.log| :: w.wire.log[i].at <= w.wire.lastCommandAt)
    && (!NotAskedYet(w) ==> forall i | 0 <= i < |w.wire.log| && w.wire.log[i].command.Bal? ::
       w.wire.log[i].at <= w.watch.lastBalanceSentAt)
  }

  predicate Session(w: Worker) {
    Clocks(w) && Phases(w) && Window(w) && Strays(w) && Balances(w) && Commands(w)
  }

  lemma InitialSession(now: int)
    requires now >= 0
    ensures Session(NewWorker(now))
  {
  }

  // Waiting before a /pay.

  /** The cap of the wait never shortens it. */
  lemma CapNeverBinds(w: Worker)
    requires Clocks(w)
    ensures ClearAt(w) == Max(w.wire.lastCommandAt + COMMAND_GAP_MS, w.watch.balanceReplyUntil)
  {
  }

  lemma NoBalanceDuringTheWait(w: Worker)
    requires Phases(w) && w.desk.phase.Gap?
    ensures RequestBalance(w, true).wire.log == w.wire.log && RequestBalance(w, false).wire.log == w.wire.log
  {
  }

  // Each stretch of code keeps it.

  /** What was written stays as it was when nothing is written. */
  lemma CommandsCarry(w: Worker, v: Worker)
    requires Commands(w) && v.wire.log == w.wire.log && v.now >= w.now && v.wire.lastCommandAt == w.wire.lastCommandAt
    requires v.watch.lastBalanceSentAt == w.watch.lastBalanceSentAt
    requires forall a | a in w.wire.answers :: a in v.wire.answers
    requires NotAskedYet(w) ==> NotAskedYet(v)
    ensures Commands(v)
  {
    forall i | 0 <= i < |v.wire.log|
      ensures PayOk(v, i)
    {
      assert PayOk(w, i);
    }
  }

  lemma PollsKeepSession(w: Worker, alive: bool)
    requires Session(w)
    ensures Session(PollJobs(w, alive))
  {
    CommandsCarry(w, PollJobs(w, alive));
    ThrewCarries(w, PollJobs(w, alive));
    hide Commands, Threw;
  }

  /** What was reported stays reported. */
  lemma ThrewCarries(w: Worker, v: Worker)
    requires |w.wire.posted| <= |v.wire.posted| && forall k | 0 <= k < |w.wire.posted| ::
             v.wire.posted[k] == w.wire.posted[k]
    ensures Threw(w) ==> Threw(v)
  {
    if Threw(w) {
      var k :| 0 <= k < |w.wire.posted| && w.wire.posted[k].outcome == Failed(false, PayoutFailed);
      assert v.wire.posted[k] == w.wire.posted[k];
    }
  }

  /** Switches, and timers that are armed or gone, do not matter. */
  ghost predicate Switched(w: Worker, v: Worker) {
    && v.now == w.now && v.link == w.link.(teleporting := v.link.teleporting)
       && (v.link.teleporting ==> w.link.teleporting)
    && v.watch == w.watch.(probes := v.watch.probes, balanceTimer := v.watch.balanceTimer, idleTimer := v.watch.idleTimer)
    && v.watch.probes <= w.watch.probes
    && v.desk == w.desk.(payoutCooldownSeen := v.desk.payoutCooldownSeen) && v.wire == w.wire.(quits := v.wire.quits)
  }

  lemma SwitchesKeepSession(w: Worker, v: Worker)
    requires Session(w) && Switched(w, v)
    ensures Session(v)
  {
    CommandsCarry(w, v);
    ThrewCarries(w, v);
    hide Commands, Threw;
  }

  lemma SoonKeepsSession(w: Worker, delay: int)
    requires Session(w)
    ensures Session(BalanceSoon(w, delay))
  {
    hide Session;
    SwitchesKeepSession(w, BalanceSoon(w, delay));
  }

  /** Logging out is only asked for here; the session is over when the `end` handler runs. */
  lemma CycleKeepsSession(w: Worker, reason: bool)
    requires Session(w)
    ensures Session(CycleConnection(w, reason))
  {
    hide Session;
    SwitchesKeepSession(w, CycleConnection(w, reason));
  }

  lemma EndPollKeepsSession(w: Worker)
    requires Session(w) && !w.desk.phase.InFlight? && !w.desk.phase.Gap?
    ensures Session(EndPoll(w))
  {
    CommandsCarry(w, EndPoll(w));
    ThrewCarries(w, EndPoll(w));
    hide Commands, Threw;
  }

  lemma OtherJobKeepsSession(w: Worker)
    requires Session(w) && w.desk.phase.Claiming?
    ensures Session(StartOtherJob(w))
  {
    CommandsCarry(w, StartOtherJob(w));
    ThrewCarries(w, StartOtherJob(w));
    hide Commands, Threw;
  }

  lemma StartPayoutKeepsSession(w: Worker, job: Claimed)
    requires Session(w) && w.desk.phase.Claiming?
    ensures Session(StartPayout(w, job))
  {
    SoonKeepsSession(w, BALANCE_AFTER_MOVE_MS + PAYOUT_CONFIRM_MS);
    var u := BalanceSoon(w, BALANCE_AFTER_MOVE_MS + PAYOUT_CONFIRM_MS);
    assert u == w.(watch := w.watch.(balanceTimer := u.watch.balanceTimer));
    CapNeverBinds(w);
    CommandsCarry(u, StartPayout(w, job));
    ThrewCarries(u, StartPayout(w, job));
    hide Commands, ClearAt, BalanceSoon, Threw;
  }

  lemma HoldBackKeepsSession(w: Worker, retryable: bool)
    requires Session(w) && w.desk.phase.Gap?
    ensures Session(HoldBack(w, retryable))
  {
    CommandsCarry(w, HoldBack(w, retryable));
    ThrewCarries(w, HoldBack(w, retryable));
    hide Commands, Threw;
  }

  lemma WriteKeepsCommands(w: Worker)
    requires Session(w) && w.desk.phase.Gap? && w.now >= w.desk.phase.wakeAt && ConnectionLive(w, w.desk.phase.conn)
             && !AnswerDue(w)
    ensures Commands(WritePayout(w))
  {
    hide Window, Strays;
    var v := WritePayout(w);
    assert v.wire.log == w.wire.log + [Sent(Pay(w.desk.phase.job, w.desk.phase.conn), w.link.conn.value, w.now,
           w.watch.lastBalanceAnswerAt)];
    assert !NotAskedYet(w);
    forall i | 0 <= i < |v.wire.log|
      ensures PayOk(v, i)
    {
      if i < |w.wire.log| {
        assert PayOk(w, i);
      }
    }
  }

  lemma WriteKeepsSession(w: Worker)
    requires Session(w) && w.desk.phase.Gap? && w.now >= w.desk.phase.wakeAt && ConnectionLive(w, w.desk.phase.conn)
             && !AnswerDue(w)
    ensures Session(WritePayout(w))
  {
    WriteKeepsCommands(w);
    ThrewCarries(w, WritePayout(w));
    hide Commands, Threw;
  }

  lemma ThrownWriteKeepsSession(u: Worker, job: Claimed)
    requires Session(u) && u.desk.phase.InFlight?
    ensures Session(Report(u, job, Failed(false, PayoutFailed), false))
  {
    var v := Report(u, job, Failed(false, PayoutFailed), false);
    CommandsCarry(u, v);
    assert Threw(v) by {
      assert v.wire.posted[|u.wire.posted|].outcome == Failed(false, PayoutFailed);
    }
    hide Commands, Threw;
  }

  lemma SendPayoutKeepsSession(w: Worker, throws: bool)
    requires Session(w) && w.desk.phase.Gap? && w.now >= w.desk.phase.wakeAt
    ensures Session(SendPayout(w, throws))
  {
    if !ConnectionLive(w, w.desk.phase.conn) || AnswerDue(w) {
      HoldBackKeepsSession(w, ConnectionLive(w, w.desk.phase.conn));
    } else {
      WriteKeepsSession(w);
      assert WritePayout(w).desk.phase.InFlight?;
      ThrownWriteKeepsSession(WritePayout(w), w.desk.phase.job);
    }
    hide Session, WritePayout, HoldBack, Report, AnswerDue, ConnectionLive;
  }

  lemma ConcludeKeepsSession(w: Worker, answer: Answer)
    requires Session(w) && w.desk.phase.InFlight?
    ensures Session(Conclude(Disarmed(w, w.desk.phase.timer), w.desk.phase.job, answer))
  {
    hide Conclusion;
    var v := Conclude(Disarmed(w, w.desk.phase.timer), w.desk.phase.job, answer);
    CommandsCarry(w, v);
    ThrewCarries(w, v);
    hide Commands, Threw;
  }

  lemma StrayTimerKeepsSession(w: Worker, timer: TimerId)
    requires Session(w) && timer in w.desk.payTimers && (w.desk.phase.InFlight? ==> w.desk.phase.timer != timer)
    ensures Session(Disarmed(w, timer))
  {
    CommandsCarry(w, Disarmed(w, timer));
    ThrewCarries(w, Disarmed(w, timer));
    hide Commands, Threw;
  }

  /** An entry is taken away and its timer with it; the payout behind that timer is concluded. */
  lemma ResolveKeepsSession(w: Worker, timer: TimerId, answer: Answer)
    requires Session(w) && timer in w.desk.payTimers
    ensures Session(Resolve(Disarmed(w, timer), timer, answer))
  {
    hide Session, Conclude;
    var u := Disarmed(w, timer);
    assert u.desk.phase == w.desk.phase;
    hide Disarmed;
    if w.desk.phase.InFlight? && w.desk.phase.timer == timer {
      ConcludeKeepsSession(w, answer);
    } else {
      StrayTimerKeepsSession(w, timer);
    }
  }

  lemma SettleKeepsSession(w: Worker, answer: Answer)
    requires Session(w)
    ensures Session(SettlePending(w, answer))
  {
    hide Resolve;
    if w.desk.pending.Some? {
      ResolveKeepsSession(w, w.desk.pending.value.timer, answer);
    }
  }

  // Commands other than /pay.

  lemma CommandKeepsCommands(w: Worker, v: Worker, command: Command)
    requires Commands(w) && w.link.conn.Some? && !command.Pay?
    requires v.wire.log == w.wire.log + [Sent(command, w.link.conn.value, w.now, w.watch.lastBalanceAnswerAt)]
    requires v.wire.answers == w.wire.answers && v.now == w.now && v.wire.lastCommandAt == w.now
    requires command.Bal? ==> v.watch.lastBalanceSentAt == w.now && v.watch.balanceReplyUntil == w.now + BALANCE_REPLY_MS
    requires !command.Bal? ==>
            v.watch.lastBalanceSentAt == w.watch.lastBalanceSentAt
            && (NotAskedYet(w) ==> NotAskedYet(v))
    ensures Commands(v)
  {
    forall i | 0 <= i < |v.wire.log|
      ensures PayOk(v, i)
    {
      if i < |w.wire.log| {
        assert PayOk(w, i);
      }
    }
  }

  lemma AskKeepsSession(w: Worker, idle: bool)
    requires Session(w) && w.link.conn.Some? && w.desk.pending.None? && !w.desk.payoutPreparing
    ensures Session(AskBalance(w, idle))
  {
    var v := AskBalance(w, idle);
    CommandKeepsCommands(w, v, Bal(idle));
    ThrewCarries(w, v);
    hide Commands, Threw;
  }

  lemma RequestBalanceKeepsSession(w: Worker, idle: bool)
    requires Session(w)
    ensures Session(RequestBalance(w, idle))
  {
    SoonKeepsSession(w, BALANCE_AFTER_MOVE_MS);
    hide Session, AskBalance, BalanceSoon;
    if w.link.conn.Some? && w.desk.pending.None? && !w.desk.payoutPreparing {
      AskKeepsSession(w, idle);
    }
  }

  lemma BalanceTimersKeepSession(w: Worker, gap: int)
    requires Session(w)
    ensures Session(BalanceTimer(w)) && Session(IdleTimer(w, gap)) && Session(SeePayment(w))
  {
    var soon, idle := w.(watch := w.watch.(balanceTimer := None)), w.(watch := w.watch.(idleTimer := None));
    assert Switched(w, soon) && Switched(w, idle);
    hide Session, RequestBalance;
    SwitchesKeepSession(w, soon);
    SwitchesKeepSession(w, idle);
    RequestBalanceKeepsSession(soon, false);
    RequestBalanceKeepsSession(idle, true);
    SwitchesKeepSession(RequestBalance(idle, true), IdleTimer(w, gap));
    SoonKeepsSession(w, BALANCE_AFTER_MOVE_MS);
  }

  lemma RtpKeepsSession(w: Worker)
    requires Session(w)
    ensures Session(SendRtp(w))
  {
    var v := SendRtp(w);
    if v != w {
      CommandKeepsCommands(w, v, Rtp);
      ThrewCarries(w, v);
      hide Commands, Threw;
    }
  }

  // Readings, switches and connections.

  lemma BalanceSeenKeepsSession(w: Worker)
    requires Session(w)
    ensures Session(SeeBalance(w))
  {
    var v := SeeBalance(w);
    if w.now < w.watch.balanceReplyUntil {
      CommandsCarry(w, v);
      ThrewCarries(w, v);
      hide Commands, Threw;
    }
  }

  lemma SilenceKeepsSession(w: Worker)
    requires Session(w)
    ensures Session(CountSilence(w))
  {
    var u := w.(watch := w.watch.(awaitingAnswer := true, unansweredProbes := w.watch.unansweredProbes + 1));
    CommandsCarry(w, u);
    ThrewCarries(w, u);
    assert Session(u) by { hide Commands, Threw; }
    hide Session, BalanceSoon, CycleConnection;
    SoonKeepsSession(u, COMMAND_PROBE_GAP_MS);
    CycleKeepsSession(u, true);
  }

  lemma ProbeKeepsSession(w: Worker, probe: Probe)
    requires Session(w)
    ensures Session(ProbeTimer(w, probe))
  {
    assert Switched(w, DropProbe(w, probe));
    hide Session, CountSilence, DropProbe;
    SwitchesKeepSession(w, DropProbe(w, probe));
    SilenceKeepsSession(DropProbe(w, probe));
  }

  lemma RelogKeepsSession(w: Worker)
    requires Session(w)
    ensures Session(RelogWhenIdle(w))
  {
    var v := RelogWhenIdle(w);
    CommandsCarry(w, v);
    ThrewCarries(w, v);
    hide Commands, Threw;
  }

  lemma RelogTimerKeepsSession(w: Worker)
    requires Session(w)
    ensures Session(RelogTimer(w))
  {
    var u := w.(link := w.link.(relogDue := true));
    CommandsCarry(w, u);
    ThrewCarries(w, u);
    hide Commands, Threw;
    RelogKeepsSession(u);
  }

  /** Eight seconds of window against at least ten to the next login; a shorter gap only with nothing armed. */
  lemma EndKeepsSession(w: Worker, cause: Cause, gap: int)
    requires Session(w) && GapFits(w.link.relogging, cause, gap)
    ensures Session(EndConnection(w, gap))
  {
    var v := EndConnection(w, gap);
    CommandsCarry(w, v);
    ThrewCarries(w, v);
    TimersEndFirst(w, cause, gap);
    hide Commands, Threw;
  }

  lemma TimersEndFirst(w: Worker, cause: Cause, gap: int)
    requires Session(w) && GapFits(w.link.relogging, cause, gap)
    ensures w.desk.pending.Some? ==> w.desk.payTimers[w.desk.pending.value.timer] < w.now + gap
    ensures w.desk.phase.InFlight? ==> w.desk.payTimers[w.desk.phase.timer] < w.now + gap
  {
    if w.desk.pending.Some? || w.desk.phase.InFlight? {
      assert gap >= RECONNECT_GAP_MS;
    }
    hide Strays, Balances;
  }

  /** A login finds no entry armed and no payout in flight: every timer due before it has fired. */
  lemma LoginFindsNothingArmed(s: State)
    requires Session(s.worker) && WorkerEnabled(s, LoginStarts)
    ensures s.worker.desk.pending.None? && !s.worker.desk.phase.InFlight?
  {
    hide Commands, Strays, Balances;
  }

  lemma LoginKeepsSession(w: Worker)
    requires Session(w) && w.desk.pending.None? && !w.desk.phase.InFlight?
    ensures Session(OpenConnection(w))
  {
    var v := OpenConnection(w);
    CommandsCarry(w, v);
    ThrewCarries(w, v);
    hide Commands, Threw;
  }

  lemma SpawnKeepsSession(w: Worker, gap: int)
    requires Session(w) && w.link.conn.Some? && !w.link.spawned
    ensures Session(Spawn(w, gap))
  {
    var v := Spawn(w, gap);
    CommandsCarry(w, v);
    ThrewCarries(w, v);
    hide Commands, Threw;
  }

  lemma TimeKeepsSession(w: Worker, to: int)
    requires Session(w) && to >= w.now
    ensures Session(Tick(w, to))
  {
    CommandsCarry(w, Tick(w, to));
    ThrewCarries(w, Tick(w, to));
    hide Commands, Threw;
  }

  lemma RestartKeepsSession(w: Worker)
    requires Session(w)
    ensures Session(Restarted(w))
  {
    CommandsCarryToNewProcess(w);
    hide Commands, Threw;
  }

  lemma CommandsCarryToNewProcess(w: Worker)
    requires Commands(w)
    ensures Commands(Restarted(w))
  {
    forall i | 0 <= i < |w.wire.log|
      ensures PayOk(Restarted(w), i)
    {
      assert PayOk(w, i);
    }
  }

  // Every event of a run.

  lemma ReceiptKeepsSession(w: Worker, payee: Name, displayed: string)
    requires Session(w)
    ensures Session(SeeReceipt(w, payee, displayed))
  {
    hide SettlePending, Session;
    SettleKeepsSession(w, Receipt(displayed));
  }

  lemma ClaimReturnsKeepsSession(s: State)
    requires Session(s.worker) && s.worker.desk.phase.Claiming? && s.worker.desk.phase.event in s.tables.claims
    ensures Session(ClaimedJob(s, s.worker))
  {
    hide Session, StartPayout, EndPoll, StartOtherJob;
    var w := s.worker;
    EndPollKeepsSession(w);
    OtherJobKeepsSession(w);
    match s.tables.claims[w.desk.phase.event] {
      case ForPayout(id) =>
        if id in s.tables.jobs {
          var job := s.tables.jobs[id];
          StartPayoutKeepsSession(w, Claimed(Withdrawal(id), w.desk.phase.event, job.payee, job.amount));
        }
      case ForTransfer(payee, amount) => StartPayoutKeepsSession(w,
          Claimed(OtherMoney, w.desk.phase.event, payee, amount));
      case _ =>
    }
  }

  lemma PayoutEventKeepsSession(s: State, e: WorkerEvent)
    requires Session(s.worker) && WorkerEnabled(s, e)
    requires e.Polls? || e.ClaimReturns? || e.ClaimFails? || e.OtherWorkEnds? || e.WaitEnds?
             || e.WindowEnds? || e.RefusalSeen? || e.ReceiptSeen? || e.ReportEnds?
    ensures Session(ApplyWorker(s, e))
  {
    hide Session, EndPoll, StartOtherJob, CycleConnection, PollJobs, ClaimedJob, SendPayout, Resolve, SettlePending,
      SeeReceipt, SeeCooldown, BalanceTimer, IdleTimer, SeeBalance, ProbeTimer, RelogTimer, RelogWhenIdle,
        CheckManualPlay,
      EndConnection, OpenConnection, Spawn, SendRtp, TeleportSettled, Restarted, GapFits, Tick;
    var w := s.worker;
    match e {
      case Polls(alive) => PollsKeepSession(w, alive);
      case ClaimReturns => ClaimReturnsKeepsSession(s);
      case ClaimFails => EndPollKeepsSession(w);
      case OtherWorkEnds(reconnect) =>
        CycleKeepsSession(w, reconnect);
        CycleKeepsPhase(w, reconnect);
        EndPollKeepsSession(CycleConnection(w, reconnect));
      case WaitEnds(throws) => SendPayoutKeepsSession(w, throws);
      case WindowEnds(timer) => ResolveKeepsSession(w, timer, NoAnswer);
      case RefusalSeen(refusal) => SettleKeepsSession(w, RefusedFor(refusal));
      case ReceiptSeen(sent) => ReceiptKeepsSession(w, w.wire.log[sent].command.job.payee, s.fates[sent].displayed);
      case ReportEnds(delivered) =>
        CycleKeepsSession(w, delivered && w.desk.phase.reconnect);
        CycleKeepsPhase(w, delivered && w.desk.phase.reconnect);
        EndPollKeepsSession(CycleConnection(w, delivered && w.desk.phase.reconnect));
    }
  }

  lemma CycleKeepsPhase(w: Worker, reason: bool)
    ensures CycleConnection(w, reason).desk.phase == w.desk.phase
  {
  }

  lemma TimerEventKeepsSession(s: State, e: WorkerEvent)
    requires Session(s.worker) && WorkerEnabled(s, e)
    requires e.Ticks? || e.BalanceDue? || e.IdleReadDue? || e.PaymentSeen? || e.BalanceSeen? || e.ProbeDue?
             || e.RelogDue? || e.RelogRetried?
    ensures Session(ApplyWorker(s, e))
  {
    hide Session, EndPoll, StartOtherJob, CycleConnection, PollJobs, ClaimedJob, SendPayout, Resolve, SettlePending,
      SeeReceipt, SeeCooldown, BalanceTimer, IdleTimer, SeePayment, SeeBalance, ProbeTimer, RelogTimer, RelogWhenIdle,
        CheckManualPlay,
      EndConnection, OpenConnection, Spawn, SendRtp, TeleportSettled, Restarted, GapFits, Tick;
    var w := s.worker;
    match e {
      case Ticks(to) => TimeKeepsSession(w, to);
      case BalanceDue => BalanceTimersKeepSession(w, 0);
      case IdleReadDue(gap) => BalanceTimersKeepSession(w, gap);
      case PaymentSeen => BalanceTimersKeepSession(w, 0);
      case BalanceSeen => BalanceSeenKeepsSession(w);
      case ProbeDue(probe) => ProbeKeepsSession(w, probe);
      case RelogDue => RelogTimerKeepsSession(w);
      case RelogRetried => RelogKeepsSession(w);
    }
  }

  lemma ConnectionEventKeepsSession(s: State, e: WorkerEvent)
    requires Session(s.worker) && WorkerEnabled(s, e)
    requires e.ConnectionEnds? || e.LoginStarts? || e.Spawns? || e.RtpDue? || e.Restarts?
    ensures Session(ApplyWorker(s, e))
  {
    var w := s.worker;
    hide Session, EndPoll, StartOtherJob, CycleConnection, PollJobs, ClaimedJob, SendPayout, Resolve, SettlePending,
      SeeReceipt, SeeCooldown, BalanceTimer, IdleTimer, SeePayment, SeeBalance, ProbeTimer, RelogTimer, RelogWhenIdle,
        CheckManualPlay,
      EndConnection, OpenConnection, Spawn, SendRtp, TeleportSettled, Restarted, GapFits, Tick;
    match e {
      case ConnectionEnds(cause, gap) => EndKeepsSession(w, cause, gap);
      case LoginStarts =>
        LoginFindsNothingArmed(s);
        LoginKeepsSession(w);
      case Spawns(gap) => SpawnKeepsSession(w, gap);
      case RtpDue => RtpKeepsSession(w);
      case Restarts => RestartKeepsSession(w);
    }
  }

  lemma SwitchEventKeepsSession(s: State, e: WorkerEvent)
    requires Session(s.worker) && WorkerEnabled(s, e)
    requires e.CooldownSeen? || e.ManualPlayChecked? || e.RtpSettled? || e.TransferSet? || e.Stops?
    ensures Session(ApplyWorker(s, e))
  {
    hide Session;
    SwitchesKeepSession(s.worker, ApplyWorker(s, e));
  }

  lemma WorkerKeepsSession(s: State, e: WorkerEvent)
    requires Session(s.worker) && WorkerEnabled(s, e)
    ensures Session(ApplyWorker(s, e))
  {
    hide Session, WorkerEnabled, ApplyWorker;
    match e {
      case CooldownSeen | ManualPlayChecked(_) | RtpSettled | TransferSet(_) | Stops => SwitchEventKeepsSession(s, e);
      case Ticks(_) | BalanceDue | IdleReadDue(_) | PaymentSeen | BalanceSeen | ProbeDue(_) | RelogDue | RelogRetried =>
        TimerEventKeepsSession(s, e);
      case ConnectionEnds(_, _) | LoginStarts | Spawns(_) | RtpDue | Restarts => ConnectionEventKeepsSession(s, e);
      case _ => PayoutEventKeepsSession(s, e);
    }
  }
}
