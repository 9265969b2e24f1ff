/**
 * Unanswered probes and a payout in flight: the probes that can come due inside its window are too few
 * to end the session, even when an abandoned window has taken the payout's entry away.
 */
module PayoutProbes {
  import opened Gateway
  import opened Options
  import opened PayoutReads
  import opened PayoutSession
  import opened PayoutSystem
  import opened WorkerModel

  /** A probe sent later than this into a payout's window comes due only after the window. */
  const SLACK_MS := PAYOUT_CONFIRM_MS - PROBE_MS

  predicate InFlightNow(w: Worker) {
    w.desk.phase.InFlight? && w.desk.phase.sent < |w.wire.log|
  }

  predicate Early(w: Worker, at: int)
    requires InFlightNow(w)
  {
    w.wire.log[w.desk.phase.sent].at <= at <= w.wire.log[w.desk.phase.sent].at + SLACK_MS
  }

  /** Probes still to come due that were sent early in the window. */
  function EarlyProbes(w: Worker): set<Probe>
    requires InFlightNow(w)
  {
    set probe | probe in w.watch.probes && Early(w, probe.sentAt)
  }

  predicate IsEarlyRead(w: Worker, i: int)
    requires InFlightNow(w)
  {
    && w.desk.phase.sent < i < |w.wire.log| && w.wire.log[i].command.Bal?
       && w.wire.log[i].conn == w.wire.log[w.desk.phase.sent].conn
    && Early(w, w.wire.log[i].at)
  }

  /** The /bal commands written early in the window. */
  function EarlyReads(w: Worker): set<nat>
    requires InFlightNow(w)
  {
    set i: nat | w.desk.phase.sent < i < |w.wire.log| && IsEarlyRead(w, i)
  }

  predicate Counted(w: Worker) {
    w.desk.phase.InFlight? ==>
      && InFlightNow(w)
      && (forall probe | probe in w.watch.probes ::
            probe.sentAt <= w.watch.lastBalanceAnswerAt || w.wire.log[w.desk.phase.sent].at <= probe.sentAt)
      && w.watch.unansweredProbes + |EarlyProbes(w)| <= |EarlyReads(w)|
  }

  predicate Probing(w: Worker) {
    && (forall probe | probe in w.watch.probes :: probe.timer < w.wire.nextId)
    && (w.link.spawned && !w.watch.awaitingAnswer ==> w.watch.unansweredProbes == 0)
    && w.watch.lastBalanceSentAt <= w.wire.lastCommandAt
    && Counted(w)
  }

  lemma Any(s: set<nat>) returns (x: nat)
    requires |s| > 0
    ensures x in s
  {
    assert s != {};
    var y :| y in s;
    x := y;
  }

  lemma Three(s: set<nat>) returns (a: nat, b: nat, c: nat)
    requires |s| >= 3
    ensures a in s && b in s && c in s && a < b < c
  {
    var x := Any(s);
    assert |s - {x}| == |s| - 1;
    var y := Any(s - {x});
    assert |s - {x} - {y}| == |s| - 2;
    var z := Any(s - {x} - {y});
    a, b, c := Least3(x, y, z), Middle3(x, y, z), Most3(x, y, z);
  }

  function Least3(x: int, y: int, z: int): int {
    Min(x, Min(y, z))
  }

  function Most3(x: int, y: int, z: int): int {
    Max(x, Max(y, z))
  }

  function Middle3(x: int, y: int, z: int): int {
    x + y + z - Least3(x, y, z) - Most3(x, y, z)
  }

  /** Two and a half seconds have room for one read of each timer. */
  lemma FewEarlyReads(w: Worker)
    requires InFlightNow(w) && Timed(w)
    ensures |EarlyReads(w)| <= 2
  {
    if |EarlyReads(w)| >= 3 {
      var a, b, c := Three(EarlyReads(w));
      OfOneTimer(w, a, b);
      OfOneTimer(w, b, c);
      OfOneTimer(w, a, c);
    }
  }

  /** Two early reads were not asked for by the same timer. */
  lemma OfOneTimer(w: Worker, i: nat, j: nat)
    requires InFlightNow(w) && Timed(w) && IsEarlyRead(w, i) && IsEarlyRead(w, j) && i < j
    ensures w.wire.log[i].command.idle != w.wire.log[j].command.idle
  {
    var conn := w.wire.log[i].conn;
    assert IsRead(w.wire.log, i, w.wire.log[i].command.idle, conn)
           && IsRead(w.wire.log, j, w.wire.log[j].command.idle, conn);
  }

  lemma FewerProbes(a: set<Probe>, b: set<Probe>)
    requires a <= b
    ensures |a| <= |b|
  {
    assert b == a + (b - a);
  }

  /** Whatever neither writes nor adds a probe keeps the count. */
  lemma ProbingCarries(w: Worker, v: Worker)
    requires Probing(w) && v.wire.log == w.wire.log && (v.desk.phase == w.desk.phase || !v.desk.phase.InFlight?)
    requires v.watch.probes <= w.watch.probes && v.wire.nextId >= w.wire.nextId
             && v.watch.unansweredProbes <= w.watch.unansweredProbes
    requires v.watch.lastBalanceAnswerAt >= w.watch.lastBalanceAnswerAt
             && v.watch.lastBalanceSentAt <= v.wire.lastCommandAt
    requires v.link.spawned && !v.watch.awaitingAnswer ==> v.watch.unansweredProbes == 0
    ensures Probing(v)
  {
    if v.desk.phase.InFlight? {
      assert EarlyReads(v) == EarlyReads(w);
      FewerProbes(EarlyProbes(v), EarlyProbes(w));
    }
  }

  /** A probe that goes unanswered in flight was sent early in the window. */
  lemma SilenceIsEarly(w: Worker, probe: Probe)
    requires Session(w) && Probing(w) && Timed(w) && w.desk.phase.InFlight? && probe in w.watch.probes
             && w.watch.lastBalanceAnswerAt < probe.sentAt
    requires forall timer | timer in w.desk.payTimers :: w.desk.payTimers[timer] >= probe.sentAt + PROBE_MS
    ensures probe in EarlyProbes(w) && w.watch.unansweredProbes <= 1
  {
    hide Commands, Phases, Balances, Strays, Clocks, Timed;
    FewEarlyReads(w);
    assert Early(w, probe.sentAt);
    FewerProbes({probe}, EarlyProbes(w));
    hide EarlyReads;
  }

  lemma SilenceKeepsProbing(w: Worker)
    requires Probing(w) && (w.desk.phase.InFlight? ==> w.watch.unansweredProbes + 1 + |EarlyProbes(w)| <= |EarlyReads(w)|)
    ensures Probing(CountSilence(w))
  {
    var v := CountSilence(w);
    assert v.wire.log == w.wire.log && v.desk.phase == w.desk.phase && v.watch.probes == w.watch.probes
           && v.watch.unansweredProbes == w.watch.unansweredProbes + 1;
    if w.desk.phase.InFlight? {
      assert EarlyReads(v) == EarlyReads(w) && EarlyProbes(v) == EarlyProbes(w);
    }
    hide EarlyReads, EarlyProbes;
  }

  lemma ProbeKeepsProbing(w: Worker, probe: Probe)
    requires Session(w) && Probing(w) && Timed(w) && probe in w.watch.probes
    requires forall timer | timer in w.desk.payTimers :: w.desk.payTimers[timer] >= probe.sentAt + PROBE_MS
    ensures Probing(ProbeTimer(w, probe))
  {
    var u := DropProbe(w, probe);
    ProbingCarries(w, u);
    if Silent(w, probe) {
      if w.desk.phase.InFlight? {
        SilenceIsEarly(w, probe);
        assert EarlyReads(u) == EarlyReads(w);
        assert EarlyProbes(u) == EarlyProbes(w) - {probe};
      }
      hide Session, Timed, EarlyReads, EarlyProbes, Probing, CountSilence;
      SilenceKeepsProbing(u);
    }
  }

  lemma WriteKeepsProbing(w: Worker)
    requires Session(w) && Probing(w)
    requires w.desk.phase.Gap? && w.now >= w.desk.phase.wakeAt && ConnectionLive(w, w.desk.phase.conn) && !AnswerDue(w)
    ensures Probing(WritePayout(w))
  {
    hide Window, Strays;
    var v := WritePayout(w);
    assert v.wire.log == w.wire.log + [Sent(Pay(w.desk.phase.job, w.desk.phase.conn), w.link.conn.value, w.now,
           w.watch.lastBalanceAnswerAt)];
    assert v.desk.phase == InFlight(w.desk.phase.job, w.wire.nextId, |w.wire.log|) && v.watch.probes == w.watch.probes
           && v.watch.unansweredProbes == 0;
    assert EarlyProbes(v) == {};
    hide Commands;
  }

  lemma HoldBackKeepsProbing(w: Worker, retryable: bool)
    requires Probing(w) && w.desk.phase.Gap?
    ensures Probing(HoldBack(w, retryable))
  {
    ProbingCarries(w, HoldBack(w, retryable));
  }

  lemma SendPayoutKeepsProbing(w: Worker, throws: bool)
    requires Session(w) && Probing(w) && w.desk.phase.Gap? && w.now >= w.desk.phase.wakeAt
    ensures Probing(SendPayout(w, throws))
  {
    if !ConnectionLive(w, w.desk.phase.conn) || AnswerDue(w) {
      HoldBackKeepsProbing(w, ConnectionLive(w, w.desk.phase.conn));
    } else {
      WriteKeepsProbing(w);
      ProbingCarries(WritePayout(w), Report(WritePayout(w), w.desk.phase.job, Failed(false, PayoutFailed), false));
    }
    hide Session, Probing, WritePayout, HoldBack, Report, AnswerDue, ConnectionLive;
  }

  lemma ResolveKeepsProbing(w: Worker, timer: TimerId, answer: Answer)
    requires Probing(w)
    ensures Probing(Resolve(Disarmed(w, timer), timer, answer))
  {
    var u := Disarmed(w, timer);
    ProbingCarries(w, u);
    ConcludeKeepsProbing(u, answer);
    hide Probing, Conclude, Disarmed;
  }

  lemma ConcludeKeepsProbing(w: Worker, answer: Answer)
    requires Probing(w)
    ensures w.desk.phase.InFlight? ==> Probing(Conclude(w, w.desk.phase.job, answer))
  {
    hide Conclusion;
    if w.desk.phase.InFlight? {
      ProbingCarries(w, Conclude(w, w.desk.phase.job, answer));
    }
  }

  lemma SettleKeepsProbing(w: Worker, answer: Answer)
    requires Probing(w)
    ensures Probing(SettlePending(w, answer))
  {
    hide Resolve, Probing;
    if w.desk.pending.Some? {
      ResolveKeepsProbing(w, w.desk.pending.value.timer, answer);
    }
  }

  lemma ReceiptKeepsProbing(w: Worker, payee: Name, displayed: string)
    requires Probing(w)
    ensures Probing(SeeReceipt(w, payee, displayed))
  {
    hide SettlePending, Probing;
    SettleKeepsProbing(w, Receipt(displayed));
  }

  /** A further read adds one probe and one read. */
  lemma AskKeepsProbing(w: Worker, idle: bool)
    requires Session(w) && Probing(w) && w.link.conn.Some?
    ensures Probing(AskBalance(w, idle))
  {
    assert InFlightNow(w) && w.desk.phase.InFlight? ==>
            w.wire.log[w.desk.phase.sent].at <= w.now
            && w.wire.log[w.desk.phase.sent].conn == w.link.conn.value;
    hide Commands, Window, Strays, Phases;
    var v := AskBalance(w, idle);
    var probe := Probe(w.wire.nextId, w.link.conn.value, w.now);
    assert v.wire.log == w.wire.log + [Sent(Bal(idle), w.link.conn.value, w.now, w.watch.lastBalanceAnswerAt)]
           && v.watch.probes == w.watch.probes + {probe};
    if w.desk.phase.InFlight? {
      ReadIsCounted(w, v, probe);
    }
  }

  lemma RequestKeepsProbing(w: Worker, idle: bool)
    requires Session(w) && Probing(w)
    ensures Probing(RequestBalance(w, idle))
  {
    ProbingCarries(w, BalanceSoon(w, BALANCE_AFTER_MOVE_MS));
    hide Session, Probing, AskBalance, BalanceSoon;
    if w.link.conn.Some? {
      AskKeepsProbing(w, idle);
    }
  }

  lemma BalanceTimersKeepProbing(w: Worker, gap: int)
    requires Session(w) && Probing(w)
    ensures Probing(BalanceTimer(w)) && Probing(IdleTimer(w, gap)) && Probing(SeePayment(w))
  {
    var soon, idle := w.(watch := w.watch.(balanceTimer := None)), w.(watch := w.watch.(idleTimer := None));
    assert Switched(w, soon) && Switched(w, idle);
    SwitchesKeepSession(w, soon);
    SwitchesKeepSession(w, idle);
    ProbingCarries(w, soon);
    ProbingCarries(w, idle);
    ProbingCarries(w, SeePayment(w));
    hide Session, Probing, RequestBalance;
    RequestKeepsProbing(soon, false);
    RequestKeepsProbing(idle, true);
    ArmKeepsProbing(RequestBalance(idle, true), gap);
  }

  lemma ArmKeepsProbing(w: Worker, gap: int)
    requires Probing(w)
    ensures Probing(ArmIdle(w, gap))
  {
    ProbingCarries(w, ArmIdle(w, gap));
  }

  ghost predicate ReadAdded(w: Worker, v: Worker) {
    && InFlightNow(w) && v.desk.phase == w.desk.phase
    && |v.wire.log| == |w.wire.log| + 1 && v.wire.log[..|w.wire.log|] == w.wire.log
       && v.wire.log[|w.wire.log|].command.Bal? && v.wire.log[|w.wire.log|].at == w.now
    && v.wire.log[|w.wire.log|].conn == w.wire.log[w.desk.phase.sent].conn
  }

  lemma EarlyReadsGrow(w: Worker, v: Worker)
    requires ReadAdded(w, v)
    ensures EarlyReads(v) == EarlyReads(w) + if Early(w, w.now) then {|w.wire.log|} else {}
  {
    assert forall i | 0 <= i < |w.wire.log| :: v.wire.log[i] == w.wire.log[i];
    assert forall i | 0 <= i < |w.wire.log| :: IsEarlyRead(v, i) <==> IsEarlyRead(w, i);
    assert IsEarlyRead(v, |w.wire.log|) <==> Early(w, w.now);
  }

  lemma EarlyProbesGrow(w: Worker, v: Worker, probe: Probe)
    requires ReadAdded(w, v) && v.watch.probes == w.watch.probes + {probe} && probe.sentAt == w.now
    ensures EarlyProbes(v) == EarlyProbes(w) + if Early(w, w.now) then {probe} else {}
  {
    assert v.wire.log[w.desk.phase.sent] == w.wire.log[w.desk.phase.sent];
  }

  lemma ReadIsCounted(w: Worker, v: Worker, probe: Probe)
    requires ReadAdded(w, v) && Counted(w) && probe !in w.watch.probes && probe.sentAt == w.now
    requires v.watch.probes == w.watch.probes + {probe} && v.watch.unansweredProbes == w.watch.unansweredProbes
    requires v.watch.lastBalanceAnswerAt == w.watch.lastBalanceAnswerAt && w.wire.log[w.desk.phase.sent].at <= w.now
    ensures Counted(v)
  {
    assert v.wire.log[w.desk.phase.sent] == w.wire.log[w.desk.phase.sent];
    EarlyReadsGrow(w, v);
    EarlyProbesGrow(w, v, probe);
    hide EarlyReads, EarlyProbes, Early;
  }

  lemma RtpKeepsProbing(w: Worker)
    requires Clocks(w) && Probing(w)
    ensures Probing(SendRtp(w))
  {
    var v := SendRtp(w);
    if v != w {
      var sent := Sent(Rtp, w.link.conn.value, w.now, w.watch.lastBalanceAnswerAt);
      assert v.wire.log == w.wire.log + [sent];
      if w.desk.phase.InFlight? {
        assert forall i | 0 <= i < |w.wire.log| :: v.wire.log[i] == w.wire.log[i];
        assert forall i | 0 <= i < |w.wire.log| :: IsEarlyRead(v, i) <==> IsEarlyRead(w, i);
        assert EarlyReads(v) == EarlyReads(w) && EarlyProbes(v) == EarlyProbes(w);
      }
    }
  }

  lemma StartKeepsProbing(w: Worker, job: Claimed)
    requires Probing(w) && w.desk.phase.Claiming?
    ensures Probing(StartPayout(w, job)) && Probing(EndPoll(w)) && Probing(StartOtherJob(w))
  {
    hide ClearAt;
    ProbingCarries(w, StartPayout(w, job));
    ProbingCarries(w, EndPoll(w));
    ProbingCarries(w, StartOtherJob(w));
    hide Probing;
  }

  lemma ClaimReturnsKeepsProbing(s: State)
    requires Probing(s.worker) && s.worker.desk.phase.Claiming? && s.worker.desk.phase.event in s.tables.claims
    ensures Probing(ClaimedJob(s, s.worker))
  {
    hide Probing, StartPayout, EndPoll, StartOtherJob;
    var w := s.worker;
    StartKeepsProbing(w, Claimed(OtherMoney, 0, "", ""));
    match s.tables.claims[w.desk.phase.event] {
      case ForPayout(id) =>
        if id in s.tables.jobs {
          var job := s.tables.jobs[id];
          StartKeepsProbing(w, Claimed(Withdrawal(id), w.desk.phase.event, job.payee, job.amount));
        }
      case ForTransfer(payee, amount) => StartKeepsProbing(w, Claimed(OtherMoney, w.desk.phase.event, payee, amount));
      case _ =>
    }
  }

  lemma BalanceSeenKeepsProbing(w: Worker)
    requires Clocks(w) && Probing(w)
    ensures Probing(SeeBalance(w))
  {
    if w.now < w.watch.balanceReplyUntil {
      ProbingCarries(w, SeeBalance(w));
    }
    hide Probing;
  }

  lemma PollKeepsProbing(w: Worker, alive: bool)
    requires Probing(w)
    ensures Probing(PollJobs(w, alive))
  {
    hide MayClaim;
    if !(w.desk.polling || !MayClaim(w, alive)) {
      ProbingCarries(w, PollJobs(w, alive));
    }
    hide Probing;
  }

  lemma EndPollKeepsProbing(w: Worker)
    requires Probing(w)
    ensures Probing(EndPoll(w))
  {
    ProbingCarries(w, EndPoll(w));
  }

  lemma CycleKeepsProbing(w: Worker, reason: bool)
    requires Probing(w)
    ensures Probing(CycleConnection(w, reason))
  {
    ProbingCarries(w, CycleConnection(w, reason));
  }

  lemma RelogKeepsProbing(w: Worker)
    requires Probing(w)
    ensures Probing(RelogWhenIdle(w))
  {
    ProbingCarries(w, RelogWhenIdle(w));
  }

  lemma RelogDueKeepsProbing(w: Worker)
    requires Probing(w)
    ensures Probing(w.(link := w.link.(relogDue := true)))
  {
    ProbingCarries(w, w.(link := w.link.(relogDue := true)));
  }

  lemma ConnectionsKeepProbing(w: Worker, gap: int)
    requires Probing(w)
    ensures Probing(EndConnection(w, gap)) && Probing(Spawn(w, gap))
    ensures !w.link.spawned ==> Probing(OpenConnection(w))
  {
    ProbingCarries(w, EndConnection(w, gap));
    ProbingCarries(w, Spawn(w, gap));
    if !w.link.spawned {
      ProbingCarries(w, OpenConnection(w));
    }
    hide Probing;
  }

  lemma TransferKeepsProbing(w: Worker, on: bool)
    requires Probing(w)
    ensures Probing(SetTransferring(w, on))
  {
    ProbingCarries(w, SetTransferring(w, on));
  }

  lemma StopKeepsProbing(w: Worker)
    requires Probing(w)
    ensures Probing(Stop(w))
  {
    ProbingCarries(w, Stop(w));
  }

  lemma TickKeepsProbing(w: Worker, to: int)
    requires Probing(w)
    ensures Probing(Tick(w, to))
  {
    ProbingCarries(w, Tick(w, to));
  }

  lemma SettledKeepsProbing(w: Worker)
    requires Probing(w)
    ensures Probing(TeleportSettled(w))
  {
    ProbingCarries(w, TeleportSettled(w));
  }

  lemma CooldownKeepsProbing(w: Worker)
    requires Probing(w)
    ensures Probing(SeeCooldown(w))
  {
    ProbingCarries(w, SeeCooldown(w));
  }

  lemma RestartKeepsProbing(w: Worker)
    requires Probing(w)
    ensures Probing(Restarted(w))
  {
  }

  lemma PayoutEventKeepsProbing(s: State, e: WorkerEvent)
    requires Session(s.worker) && Timed(s.worker) && Probing(s.worker) && WorkerEnabled(s, e)
    requires e.ClaimReturns? || e.WaitEnds? || e.WindowEnds? || e.RefusalSeen? || e.ReceiptSeen? || e.BalanceDue?
             || e.IdleReadDue? || e.PaymentSeen? || e.ProbeDue? || e.RtpDue? || e.BalanceSeen?
    ensures Probing(ApplyWorker(s, e))
  {
    hide Session, Timed, Probing, ClaimedJob, SendPayout, Resolve, SettlePending, SeeReceipt, BalanceTimer, IdleTimer,
      SeePayment, SeeBalance, SendRtp, ProbeTimer, GapFits;
    var w := s.worker;
    ClocksOf(w);
    match e {
      case ClaimReturns => ClaimReturnsKeepsProbing(s);
      case WaitEnds(throws) => SendPayoutKeepsProbing(w, throws);
      case WindowEnds(timer) => ResolveKeepsProbing(w, timer, NoAnswer);
      case RefusalSeen(refusal) => SettleKeepsProbing(w, RefusedFor(refusal));
      case ReceiptSeen(seen) => ReceiptKeepsProbing(w, w.wire.log[seen].command.job.payee, s.fates[seen].displayed);
      case BalanceDue => BalanceTimersKeepProbing(w, 0);
      case IdleReadDue(gap) => BalanceTimersKeepProbing(w, gap);
      case PaymentSeen => BalanceTimersKeepProbing(w, 0);
      case BalanceSeen => BalanceSeenKeepsProbing(w);
      case ProbeDue(probe) => ProbeKeepsProbing(w, probe);
      case RtpDue => RtpKeepsProbing(w);
    }
  }

  lemma ClocksOf(w: Worker)
    requires Session(w)
    ensures Clocks(w)
  {
    hide Clocks, Phases, Window, Strays, Balances, Commands;
  }

  lemma WorkEndsKeepProbing(w: Worker, reason: bool)
    requires Probing(w)
    ensures Probing(EndOtherJob(w, reason)) && (w.desk.phase.Reporting? ==> Probing(EndReport(w, reason)))
  {
    hide Probing, EndPoll, CycleConnection;
    CycleKeepsProbing(w, reason);
    EndPollKeepsProbing(CycleConnection(w, reason));
    if w.desk.phase.Reporting? {
      var due := reason && w.desk.phase.reconnect;
      CycleKeepsProbing(w, due);
      EndPollKeepsProbing(CycleConnection(w, due));
    }
  }

  lemma LogoutsKeepProbing(w: Worker, parked: bool)
    requires Probing(w)
    ensures Probing(RelogTimer(w)) && Probing(RelogWhenIdle(w)) && Probing(CheckManualPlay(w, parked))
  {
    hide Probing, RelogWhenIdle, CycleConnection;
    RelogDueKeepsProbing(w);
    RelogKeepsProbing(w.(link := w.link.(relogDue := true)));
    RelogKeepsProbing(w);
    CycleKeepsProbing(w, parked && w.desk.pending.None? && !w.desk.payoutPreparing && !w.transferring
      && !w.desk.polling);
  }

  lemma OtherEventKeepsProbing(s: State, e: WorkerEvent)
    requires Session(s.worker) && Probing(s.worker) && WorkerEnabled(s, e)
    requires !(e.ClaimReturns? || e.WaitEnds? || e.WindowEnds? || e.RefusalSeen? || e.ReceiptSeen? || e.BalanceDue?
               || e.IdleReadDue? || e.PaymentSeen? || e.ProbeDue? || e.RtpDue? || e.BalanceSeen?)
    ensures Probing(ApplyWorker(s, e))
  {
    hide Session, Probing, PollJobs, EndConnection, OpenConnection, Spawn, Restarted, EndPoll, EndOtherJob, EndReport,
      RelogWhenIdle, RelogTimer, CheckManualPlay, GapFits, SeeCooldown, TeleportSettled, SetTransferring, Stop, Tick;
    var w := s.worker;
    ClocksOf(w);
    match e {
      case Polls(alive) => PollKeepsProbing(w, alive);
      case ClaimFails => EndPollKeepsProbing(w);
      case OtherWorkEnds(reconnect) => WorkEndsKeepProbing(w, reconnect);
      case ReportEnds(delivered) => WorkEndsKeepProbing(w, delivered);
      case RelogDue => LogoutsKeepProbing(w, false);
      case RelogRetried => LogoutsKeepProbing(w, false);
      case ManualPlayChecked(parked) => LogoutsKeepProbing(w, parked);
      case ConnectionEnds(_, gap) => ConnectionsKeepProbing(w, gap);
      case LoginStarts => ConnectionsKeepProbing(w, 0);
      case Spawns(gap) => ConnectionsKeepProbing(w, gap);
      case Ticks(to) => TickKeepsProbing(w, to);
      case TransferSet(on) => TransferKeepsProbing(w, on);
      case Restarts => RestartKeepsProbing(w);
      case RtpSettled => SettledKeepsProbing(w);
      case CooldownSeen => CooldownKeepsProbing(w);
      case Stops => StopKeepsProbing(w);
    }
  }

  lemma WorkerKeepsProbing(s: State, e: WorkerEvent)
    requires Session(s.worker) && Timed(s.worker) && Probing(s.worker) && WorkerEnabled(s, e)
    ensures Probing(ApplyWorker(s, e))
  {
    hide Session, Timed, Probing, WorkerEnabled, ApplyWorker;
    if e.ClaimReturns? || e.WaitEnds? || e.WindowEnds? || e.RefusalSeen? || e.ReceiptSeen? || e.BalanceDue?
       || e.IdleReadDue? || e.PaymentSeen? || e.ProbeDue? || e.RtpDue? || e.BalanceSeen? {
      PayoutEventKeepsProbing(s, e);
    } else {
      OtherEventKeepsProbing(s, e);
    }
  }

  lemma InitiallyProbing(now: int)
    ensures Probing(NewWorker(now))
  {
  }

  /** A probe that comes due while a payout is in flight never logs out. */
  lemma ProbesSpareFlights(w: Worker, probe: Probe)
    requires Session(w) && Timed(w) && Probing(w) && probe in w.watch.probes && w.desk.phase.InFlight?
    requires forall timer | timer in w.desk.payTimers :: w.desk.payTimers[timer] >= probe.sentAt + PROBE_MS
    ensures ProbeTimer(w, probe).wire.quits == w.wire.quits
  {
    if w.watch.lastBalanceAnswerAt < probe.sentAt {
      SilenceIsEarly(w, probe);
    }
    hide Session, Timed, Probing;
  }
}
