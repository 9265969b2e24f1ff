/**
 * How far apart the worker's balance reads are: one timer, armed four seconds ahead or more, and the idle
 * timer, armed twenty minutes ahead or more.
 */
module PayoutReads {
  import opened Gateway
  import opened Options
  import opened PayoutSession
  import opened PayoutSystem
  import opened WorkerModel

  function Spacing(idle: bool): int {
    if idle then BALANCE_IDLE_MIN_MS else BALANCE_AFTER_MOVE_MS
  }

  ghost predicate IsRead(log: seq<Sent>, i: int, idle: bool, conn: ConnId) {
    0 <= i < |log| && log[i].command == Bal(idle) && log[i].conn == conn
  }

  /** Two reads of one session that the same timer asked for are its spacing apart. */
  ghost predicate Apart(log: seq<Sent>) {
    forall i, j, idle, conn | i < j && IsRead(log, i, idle, conn) && IsRead(log, j, idle, conn) ::
      log[i].at + Spacing(idle) <= log[j].at
  }

  /** A running timer fires no earlier than its spacing after every read of this session that it asked for. */
  ghost predicate Due(w: Worker, timer: Option<int>, idle: bool) {
    timer.Some? && w.link.conn.Some? ==>
      forall i | IsRead(w.wire.log, i, idle, w.link.conn.value) :: w.wire.log[i].at + Spacing(idle) <= timer.value
  }

  ghost predicate Fresh(w: Worker) {
    w.link.conn.Some? && (!w.link.spawned || w.link.teleporting) ==> forall i, idle ::
      !IsRead(w.wire.log, i, idle, w.link.conn.value)
  }

  ghost predicate Timed(w: Worker) {
    && Apart(w.wire.log)
    && (forall i | 0 <= i < |w.wire.log| :: w.wire.log[i].conn < w.link.nextConn)
    && Due(w, w.watch.balanceTimer, false) && Due(w, w.watch.idleTimer, true)
    && Fresh(w)
  }

  /** Nothing written, and the session goes on or ends; a timer goes on, is gone, or was armed ahead. */
  ghost predicate Carries(w: Worker, v: Worker) {
    && v.wire.log == w.wire.log && v.link.nextConn == w.link.nextConn && v.now >= w.now
    && (v.link.conn == w.link.conn || v.link.conn.None?)
    && (v.link.conn.Some? && (!v.link.spawned || v.link.teleporting) ==> !w.link.spawned || w.link.teleporting)
    && (v.watch.balanceTimer == w.watch.balanceTimer || v.watch.balanceTimer.None?
       || v.watch.balanceTimer.value >= w.now + Spacing(false))
    && (v.watch.idleTimer == w.watch.idleTimer || v.watch.idleTimer.None?
       || v.watch.idleTimer.value >= w.now + Spacing(true))
  }

  lemma TimedCarries(w: Worker, v: Worker)
    requires Session(w) && Timed(w) && Carries(w, v)
    ensures Timed(v)
  {
    assert forall i | 0 <= i < |w.wire.log| ::
           w.wire.log[i].at <= w.now by { hide Clocks, Phases, Window, Strays, Balances, PayOk; }
    hide Session;
  }

  /** A read that the timer `idle` asked for, when it came due. */
  lemma ReadsStayApart(w: Worker, sent: Sent, idle: bool, due: int)
    requires Timed(w) && w.link.conn.Some? && sent.command == Bal(idle) && sent.conn == w.link.conn.value
    requires Due(w, Some(due), idle) && sent.at >= due
    ensures Apart(w.wire.log + [sent])
  {
    var log := w.wire.log + [sent];
    forall i, j, own, conn | i < j && IsRead(log, i, own, conn) && IsRead(log, j, own, conn)
      ensures log[i].at + Spacing(own) <= log[j].at
    {
      assert IsRead(w.wire.log, i, own, conn);
      if j < |w.wire.log| {
        assert IsRead(w.wire.log, j, own, conn);
      }
    }
  }

  lemma OthersStayApart(w: Worker, sent: Sent)
    requires Timed(w) && !sent.command.Bal?
    ensures Apart(w.wire.log + [sent])
  {
    var log := w.wire.log + [sent];
    forall i, j, own, conn | i < j && IsRead(log, i, own, conn) && IsRead(log, j, own, conn)
      ensures log[i].at + Spacing(own) <= log[j].at
    {
      assert IsRead(w.wire.log, i, own, conn) && IsRead(w.wire.log, j, own, conn);
    }
  }

  /** A command written now: the timers it did not come from run on, and the one it came from is not armed. */
  lemma CommandKeepsTimed(w: Worker, v: Worker, sent: Sent)
    requires Timed(w) && Apart(w.wire.log + [sent]) && Clocks(w)
    requires w.link.conn.Some? && sent.conn == w.link.conn.value && sent.at == w.now
    requires v.wire.log == w.wire.log + [sent] && v.link == w.link
    requires sent.command.Bal? ==> w.link.spawned && !w.link.teleporting
    requires v.watch.balanceTimer == w.watch.balanceTimer && v.watch.idleTimer == w.watch.idleTimer
    requires sent.command == Bal(false) ==> v.watch.balanceTimer.None?
    requires sent.command == Bal(true) ==> v.watch.idleTimer.None?
    ensures Timed(v)
  {
    forall i, idle, conn | IsRead(v.wire.log, i, idle, conn)
      ensures IsRead(w.wire.log, i, idle, conn) || (i == |w.wire.log| && sent.command == Bal(idle))
    {
    }
    hide Apart;
  }

  lemma SoonKeepsTimed(w: Worker, delay: int)
    requires Session(w) && Timed(w) && delay >= Spacing(false)
    ensures Timed(BalanceSoon(w, delay))
  {
    hide Timed, Session;
    TimedCarries(w, BalanceSoon(w, delay));
  }

  /** The balance timer, or the idle timer, has fired: `u` is the worker without it. */
  lemma RequestKeepsTimed(u: Worker, idle: bool, due: int)
    requires Session(u) && Timed(u) && (if idle then u.watch.idleTimer else u.watch.balanceTimer).None?
    requires Due(u, Some(due), idle) && u.now >= due
    ensures Timed(RequestBalance(u, idle))
    ensures idle ==> RequestBalance(u, idle).watch.idleTimer.None?
  {
    SoonKeepsTimed(u, BALANCE_AFTER_MOVE_MS);
    assert Clocks(u) by { hide Clocks, Phases, Window, Strays, Balances, Commands; }
    if u.link.conn.Some? {
      var sent := Sent(Bal(idle), u.link.conn.value, u.now, u.watch.lastBalanceAnswerAt);
      ReadsStayApart(u, sent, idle, due);
      assert AskBalance(u, idle).wire.log == u.wire.log + [sent] && AskBalance(u, idle).link == u.link;
      if u.link.spawned && !u.link.teleporting {
        CommandKeepsTimed(u, AskBalance(u, idle), sent);
      }
    }
    hide Session, Timed, Due;
  }

  lemma BalanceTimerKeepsTimed(w: Worker)
    requires Session(w) && Timed(w) && w.watch.balanceTimer.Some? && w.now >= w.watch.balanceTimer.value
    ensures Timed(BalanceTimer(w))
  {
    var u := w.(watch := w.watch.(balanceTimer := None));
    assert Switched(w, u) && Carries(w, u);
    SwitchesKeepSession(w, u);
    TimedCarries(w, u);
    assert Due(u, Some(w.watch.balanceTimer.value), false);
    hide Session, Timed, Due, RequestBalance;
    RequestKeepsTimed(u, false, w.watch.balanceTimer.value);
  }

  lemma IdleTimerKeepsTimed(w: Worker, gap: int)
    requires Session(w) && Timed(w) && w.watch.idleTimer.Some? && w.now >= w.watch.idleTimer.value
             && gap >= BALANCE_IDLE_MIN_MS
    ensures Timed(IdleTimer(w, gap))
  {
    var u := w.(watch := w.watch.(idleTimer := None));
    assert Switched(w, u) && Carries(w, u);
    SwitchesKeepSession(w, u);
    TimedCarries(w, u);
    assert Due(u, Some(w.watch.idleTimer.value), true);
    hide Session, Timed, Due, RequestBalance;
    RequestKeepsTimed(u, true, w.watch.idleTimer.value);
    RequestBalanceKeepsSession(u, true);
    RequestKeepsTime(u, true);
    TimedCarries(RequestBalance(u, true), IdleTimer(w, gap));
  }

  lemma RequestKeepsTime(u: Worker, idle: bool)
    ensures RequestBalance(u, idle).now == u.now
  {
  }

  lemma RtpKeepsTimed(w: Worker)
    requires Session(w) && Timed(w)
    ensures Timed(SendRtp(w))
  {
    if w.link.conn.Some? {
      var sent := Sent(Rtp, w.link.conn.value, w.now, w.watch.lastBalanceAnswerAt);
      OthersStayApart(w, sent);
      if SendRtp(w) != w {
        CommandKeepsTimed(w, SendRtp(w), sent);
      }
    }
    hide Timed;
  }

  /** The first read of a session comes when the teleport has settled, at once. */
  lemma SettledKeepsTimed(w: Worker)
    requires Session(w) && Timed(w) && w.link.teleporting
    ensures Timed(TeleportSettled(w))
  {
    hide Session, Apart;
  }

  lemma WriteKeepsTimed(w: Worker, throws: bool)
    requires Session(w) && Timed(w) && w.desk.phase.Gap?
    ensures Timed(SendPayout(w, throws))
  {
    TimedCarries(w, HoldBack(w, ConnectionLive(w, w.desk.phase.conn)));
    if ConnectionLive(w, w.desk.phase.conn) {
      var sent := Sent(Pay(w.desk.phase.job, w.desk.phase.conn), w.link.conn.value, w.now, w.watch.lastBalanceAnswerAt);
      OthersStayApart(w, sent);
      var v := WritePayout(w);
      assert v.wire.log == w.wire.log + [sent];
      CommandKeepsTimed(w, v, sent);
      CommandKeepsTimed(w, Report(v, w.desk.phase.job, Failed(false, PayoutFailed), false), sent);
    }
    hide Timed, Session, HoldBack, WritePayout, Report;
  }

  lemma LoginKeepsTimed(w: Worker)
    requires Timed(w)
    ensures Timed(OpenConnection(w))
  {
    if OpenConnection(w) != w {
      assert forall i, idle :: !IsRead(w.wire.log, i, idle, w.link.nextConn);
    }
  }

  lemma SpawnKeepsTimed(w: Worker, gap: int)
    requires Session(w) && Timed(w) && w.link.conn.Some? && !w.link.spawned && gap >= BALANCE_IDLE_MIN_MS
    ensures Timed(Spawn(w, gap))
  {
    TimedCarries(w, Spawn(w, gap));
    hide Session, Timed;
  }

  /** The probe and silence path arms the timer ahead. */
  lemma ProbeKeepsTimed(w: Worker, probe: Probe)
    requires Session(w) && Timed(w)
    ensures Timed(ProbeTimer(w, probe))
  {
    TimedCarries(w, ProbeTimer(w, probe));
    hide Session, Timed;
  }

  lemma ResolveKeepsTimed(w: Worker, timer: TimerId, answer: Answer)
    requires Session(w) && Timed(w)
    ensures Timed(Resolve(Disarmed(w, timer), timer, answer))
  {
    hide Conclusion;
    TimedCarries(w, Disarmed(w, timer));
    TimedCarries(w, Conclude(Disarmed(w, timer),
      if w.desk.phase.InFlight? then w.desk.phase.job else Claimed(OtherMoney, 0, "", ""), answer));
    hide Session, Timed, Conclude;
  }

  lemma StartKeepsTimed(w: Worker, job: Claimed)
    requires Session(w) && Timed(w) && w.desk.phase.Claiming?
    ensures Timed(StartPayout(w, job)) && Timed(EndPoll(w)) && Timed(StartOtherJob(w))
  {
    hide ClearAt;
    TimedCarries(w, StartPayout(w, job));
    TimedCarries(w, EndPoll(w));
    TimedCarries(w, StartOtherJob(w));
    hide Session, Timed;
  }

  lemma ClaimReturnsKeepsTimed(s: State)
    requires Session(s.worker) && Timed(s.worker) && s.worker.desk.phase.Claiming?
             && s.worker.desk.phase.event in s.tables.claims
    ensures Timed(ClaimedJob(s, s.worker))
  {
    hide Session, Timed, StartPayout, EndPoll, StartOtherJob;
    var w := s.worker;
    StartKeepsTimed(w, Claimed(OtherMoney, 0, "", ""));
    match s.tables.claims[w.desk.phase.event] {
      case ForPayout(id) =>
        if id in s.tables.jobs {
          var job := s.tables.jobs[id];
          StartKeepsTimed(w, Claimed(Withdrawal(id), w.desk.phase.event, job.payee, job.amount));
        }
      case ForTransfer(payee, amount) => StartKeepsTimed(w, Claimed(OtherMoney, w.desk.phase.event, payee, amount));
      case _ =>
    }
  }

  /** The events that write nothing and arm no timer, or arm one ahead. */
  lemma PollsCarry(w: Worker, alive: bool, reconnect: bool)
    ensures Carries(w, PollJobs(w, alive)) && Carries(w, EndPoll(w)) && Carries(w, EndOtherJob(w, reconnect))
    ensures Carries(w, SeeCooldown(w)) && Carries(w, SeePayment(w)) && Carries(w, SeeBalance(w))
  {
    hide MayClaim;
  }

  lemma SwitchesCarry(w: Worker, on: bool, to: int, gap: int)
    requires to >= w.now
    ensures Carries(w, EndConnection(w, gap)) && Carries(w, SetTransferring(w, on)) && Carries(w, Stop(w))
    ensures Carries(w, Tick(w, to))
  {
  }

  lemma LogoutsCarry(w: Worker, parked: bool)
    ensures Carries(w, RelogTimer(w)) && Carries(w, RelogWhenIdle(w)) && Carries(w, CheckManualPlay(w, parked))
    ensures w.desk.phase.Reporting? ==> Carries(w, EndReport(w, parked))
    ensures Carries(w, Restarted(w))
  {
  }

  lemma PayoutEventKeepsTimed(s: State, e: WorkerEvent)
    requires Session(s.worker) && Timed(s.worker) && WorkerEnabled(s, e)
    requires e.ClaimReturns? || e.WaitEnds? || e.WindowEnds? || e.RefusalSeen? || e.ReceiptSeen?
    ensures Timed(ApplyWorker(s, e))
  {
    hide Session, Timed, ClaimedJob, SendPayout, Resolve, Disarmed, GapFits;
    var w := s.worker;
    match e {
      case ClaimReturns => ClaimReturnsKeepsTimed(s);
      case WaitEnds(throws) => WriteKeepsTimed(w, throws);
      case WindowEnds(timer) => ResolveKeepsTimed(w, timer, NoAnswer);
      case RefusalSeen(refusal) =>
        if w.desk.pending.Some? {
          ResolveKeepsTimed(w, w.desk.pending.value.timer, RefusedFor(refusal));
        }
      case ReceiptSeen(seen) =>
        if w.desk.pending.Some? {
          ResolveKeepsTimed(w, w.desk.pending.value.timer, Receipt(s.fates[seen].displayed));
        }
    }
  }

  lemma TimerEventKeepsTimed(s: State, e: WorkerEvent)
    requires Session(s.worker) && Timed(s.worker) && WorkerEnabled(s, e)
    requires e.BalanceDue? || e.IdleReadDue? || e.ProbeDue? || e.LoginStarts? || e.Spawns? || e.RtpDue? || e.RtpSettled?
    ensures Timed(ApplyWorker(s, e))
  {
    hide Session, Timed, BalanceTimer, IdleTimer, ProbeTimer, OpenConnection, Spawn, SendRtp, TeleportSettled, GapFits;
    var w := s.worker;
    match e {
      case BalanceDue => BalanceTimerKeepsTimed(w);
      case IdleReadDue(gap) => IdleTimerKeepsTimed(w, gap);
      case ProbeDue(probe) => ProbeKeepsTimed(w, probe);
      case LoginStarts => LoginKeepsTimed(w);
      case Spawns(gap) => SpawnKeepsTimed(w, gap);
      case RtpDue => RtpKeepsTimed(w);
      case RtpSettled => SettledKeepsTimed(w);
    }
  }

  lemma OtherEventCarries(s: State, e: WorkerEvent)
    requires WorkerEnabled(s, e)
    requires !e.ClaimReturns? && !e.WaitEnds? && !e.WindowEnds? && !e.RefusalSeen? && !e.ReceiptSeen? && !e.BalanceDue?
             && !e.IdleReadDue? && !e.ProbeDue? && !e.LoginStarts? && !e.Spawns? && !e.RtpDue? && !e.RtpSettled?
    ensures Carries(s.worker, ApplyWorker(s, e))
  {
    hide Carries, PollJobs, EndPoll, EndOtherJob, EndReport, SeeCooldown, SeePayment, SeeBalance, RelogTimer,
      RelogWhenIdle,
      CheckManualPlay, EndConnection, SetTransferring, Stop, Tick, Restarted, GapFits;
    var w := s.worker;
    match e {
      case Ticks(to) => SwitchesCarry(w, false, to, 0);
      case Polls(alive) => PollsCarry(w, alive, false);
      case OtherWorkEnds(reconnect) => PollsCarry(w, false, reconnect);
      case ConnectionEnds(_, gap) => SwitchesCarry(w, false, w.now, gap);
      case TransferSet(on) => SwitchesCarry(w, on, w.now, 0);
      case Stops => SwitchesCarry(w, false, w.now, 0);
      case ReportEnds(delivered) => LogoutsCarry(w, delivered);
      case ManualPlayChecked(parked) => LogoutsCarry(w, parked);
      case RelogDue | RelogRetried | Restarts => LogoutsCarry(w, false);
      case _ => PollsCarry(w, false, false);
    }
  }

  /** Every event of the worker keeps its reads apart. */
  lemma WorkerKeepsTimed(s: State, e: WorkerEvent)
    requires Session(s.worker) && Timed(s.worker) && WorkerEnabled(s, e)
    ensures Timed(ApplyWorker(s, e))
  {
    hide Session, Timed, WorkerEnabled, ApplyWorker, Carries;
    match e {
      case ClaimReturns | WaitEnds(_) | WindowEnds(_) | RefusalSeen(_) | ReceiptSeen(_) => PayoutEventKeepsTimed(s, e);
      case BalanceDue | IdleReadDue(_) | ProbeDue(_) | LoginStarts | Spawns(_) | RtpDue | RtpSettled =>
        TimerEventKeepsTimed(s, e);
      case _ =>
        OtherEventCarries(s, e);
        TimedCarries(s.worker, ApplyWorker(s, e));
    }
  }

  lemma InitiallyTimed(now: int)
    ensures Timed(NewWorker(now))
  {
  }
}
