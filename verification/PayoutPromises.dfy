/** What a maintainer may rely on about single commands, logouts, receipts and refunds, over every run. */
module PayoutPromises {
  import opened Gateway
  import opened Options
  import opened PayoutEvidence
  import opened PayoutInvariant
  import opened PayoutProbes
  import opened PayoutReads
  import opened PayoutSafety
  import opened PayoutSession
  import opened PayoutSystem
  import opened WorkerModel

  // Reports and what the gateway does with them.

  /** A step of the worker reports a confirmation only with proof, and "not moved" only when it is so. */
  lemma ReportsAreTrue(run: seq<State>, events: seq<Event>, n: nat)
    requires IsRun(run, events) && n < |events| && events[n].AtWorker?
    ensures Honest(run[n], run[n + 1].worker)
  {
    EveryStateIsSound(run, events, n);
    hide Honest, Safe, Session, Proven, WorkerEnabled, ApplyWorker;
    WorkerIsHonest(run[n], events[n].did);
  }

  // Commands.

  /**
   * Every /pay ever written went to the connection its job was claimed on, a full command gap after
   * every earlier command, and after an answer to every earlier /bal.
   */
  lemma EveryPayIsWellTimed(run: seq<State>, events: seq<Event>, n: nat, i: nat)
    requires IsRun(run, events) && n < |run| && IsPay(run[n], i)
    ensures PayOk(run[n].worker, i)
  {
    EveryStateIsSound(run, events, n);
    hide IsRun, Safe, Proven, Clocks, Phases, Window, Strays, Balances, PayOk;
  }

  /** A payout in flight always has its timer running, due eight seconds after its own command. */
  lemma EveryPayoutIsConcluded(run: seq<State>, events: seq<Event>, n: nat)
    requires IsRun(run, events) && n < |run| && run[n].worker.desk.phase.InFlight?
    ensures var w := run[n].worker;
            && w.desk.phase.timer in w.desk.payTimers && w.desk.phase.sent < |w.wire.log|
            && w.desk.payTimers[w.desk.phase.timer] == w.wire.log[w.desk.phase.sent].at + PAYOUT_CONFIRM_MS
  {
    EveryStateIsSound(run, events, n);
    hide IsRun, Safe, Proven, Clocks, Phases, Commands, Strays, Balances;
  }

  // Sessions.

  lemma SendPayoutKeepsQuits(w: Worker, throws: bool)
    requires w.desk.phase.Gap?
    ensures SendPayout(w, throws).wire.quits == w.wire.quits
  {
    WriteKeepsQuits(w, AnswerDue(w));
    hide WritePayout, HoldBack, AnswerDue;
  }

  lemma WriteKeepsQuits(w: Worker, retryable: bool)
    requires w.desk.phase.Gap?
    ensures HoldBack(w, retryable).wire.quits == w.wire.quits && HoldBack(w, !retryable).wire.quits == w.wire.quits
    ensures w.link.conn.Some? ==> WritePayout(w).wire.quits == w.wire.quits
  {
  }

  lemma ResolveKeepsQuits(w: Worker, timer: TimerId, answer: Answer)
    ensures Resolve(Disarmed(w, timer), timer, answer).wire.quits == w.wire.quits
  {
    var u := Disarmed(w, timer);
    assert u.wire.quits == w.wire.quits;
    hide Disarmed, Conclude;
    if u.desk.phase.InFlight? {
      ConcludeKeepsQuits(u, u.desk.phase.job, answer);
    }
  }

  lemma ConcludeKeepsQuits(w: Worker, job: Claimed, answer: Answer)
    ensures Conclude(w, job, answer).wire.quits == w.wire.quits
  {
    hide Conclusion;
  }

  lemma SettleKeepsQuits(w: Worker, answer: Answer)
    ensures SettlePending(w, answer).wire.quits == w.wire.quits
  {
    hide Resolve;
    if w.desk.pending.Some? {
      ResolveKeepsQuits(w, w.desk.pending.value.timer, answer);
    }
  }

  lemma ReceiptKeepsQuits(w: Worker, payee: Name, displayed: string)
    ensures SeeReceipt(w, payee, displayed).wire.quits == w.wire.quits
  {
    SettleKeepsQuits(w, Receipt(displayed));
    hide SettlePending;
  }

  lemma CommandsKeepQuits(w: Worker, gap: int)
    ensures BalanceTimer(w).wire.quits == w.wire.quits && IdleTimer(w, gap).wire.quits == w.wire.quits
            && SeePayment(w).wire.quits == w.wire.quits
    ensures SendRtp(w).wire.quits == w.wire.quits && SeeBalance(w).wire.quits == w.wire.quits
  {
    RequestKeepsQuits(w.(watch := w.watch.(balanceTimer := None)), false);
    RequestKeepsQuits(w.(watch := w.watch.(idleTimer := None)), true);
    hide RequestBalance;
  }

  lemma RequestKeepsQuits(w: Worker, idle: bool)
    ensures RequestBalance(w, idle).wire.quits == w.wire.quits
  {
  }

  lemma ConnectionsKeepQuits(w: Worker, gap: int, alive: bool)
    ensures EndConnection(w, gap).wire.quits == w.wire.quits && OpenConnection(w).wire.quits == w.wire.quits
            && Spawn(w, gap).wire.quits == w.wire.quits
    ensures Restarted(w).wire.quits == w.wire.quits && PollJobs(w, alive).wire.quits == w.wire.quits
  {
    hide MayClaim;
  }

  lemma ClaimsKeepQuits(s: State)
    requires s.worker.desk.phase.Claiming? && s.worker.desk.phase.event in s.tables.claims
    ensures ClaimedJob(s, s.worker).wire.quits == s.worker.wire.quits
  {
    var w := s.worker;
    assert EndPoll(w).wire.quits == w.wire.quits && StartOtherJob(w).wire.quits == w.wire.quits;
    hide StartPayout, EndPoll, StartOtherJob;
    match s.tables.claims[w.desk.phase.event] {
      case ForPayout(id) =>
        if id in s.tables.jobs {
          StartKeepsQuits(w, Claimed(Withdrawal(id), w.desk.phase.event, s.tables.jobs[id].payee,
            s.tables.jobs[id].amount));
        }
      case ForTransfer(payee, amount) => StartKeepsQuits(w, Claimed(OtherMoney, w.desk.phase.event, payee, amount));
      case _ =>
    }
  }

  lemma StartKeepsQuits(w: Worker, job: Claimed)
    requires w.desk.phase.Claiming?
    ensures StartPayout(w, job).wire.quits == w.wire.quits
  {
    hide ClearAt;
  }

  lemma SwitchesKeepQuits(w: Worker, on: bool, to: int)
    ensures EndPoll(w).wire.quits == w.wire.quits && SeeCooldown(w).wire.quits == w.wire.quits
    ensures TeleportSettled(w).wire.quits == w.wire.quits && SetTransferring(w, on).wire.quits == w.wire.quits
            && Stop(w).wire.quits == w.wire.quits
    ensures Tick(w, to).wire.quits == w.wire.quits
  {
  }

  predicate MayLogOut(did: WorkerEvent) {
    did.ReportEnds? || did.OtherWorkEnds? || did.ProbeDue? || did.RelogDue? || did.RelogRetried? || did.ManualPlayChecked?
  }

  lemma PayoutEventsKeepQuits(s: State, did: WorkerEvent)
    requires WorkerEnabled(s, did)
    requires did.ClaimReturns? || did.WaitEnds? || did.WindowEnds? || did.RefusalSeen? || did.ReceiptSeen?
    ensures ApplyWorker(s, did).wire.quits == s.worker.wire.quits
  {
    hide PollJobs, ClaimedJob, SendPayout, Resolve, SettlePending, SeeReceipt, BalanceTimer, IdleTimer, SeePayment,
      SeeBalance, EndConnection,
      OpenConnection, Spawn, SendRtp, Restarted, EndPoll, ProbeTimer, RelogTimer, RelogWhenIdle, CheckManualPlay,
      CycleConnection, GapFits, SeeCooldown, TeleportSettled, SetTransferring, Stop, Tick;
    var w := s.worker;
    match did {
      case ClaimReturns => ClaimsKeepQuits(s);
      case WaitEnds(throws) => SendPayoutKeepsQuits(w, throws);
      case WindowEnds(timer) => ResolveKeepsQuits(w, timer, NoAnswer);
      case RefusalSeen(refusal) => SettleKeepsQuits(w, RefusedFor(refusal));
      case ReceiptSeen(seen) => ReceiptKeepsQuits(w, w.wire.log[seen].command.job.payee, s.fates[seen].displayed);
    }
  }

  lemma OtherEventsKeepQuits(s: State, did: WorkerEvent)
    requires WorkerEnabled(s, did) && !MayLogOut(did)
    requires !did.ClaimReturns? && !did.WaitEnds? && !did.WindowEnds? && !did.RefusalSeen? && !did.ReceiptSeen?
    ensures ApplyWorker(s, did).wire.quits == s.worker.wire.quits
  {
    hide PollJobs, ClaimedJob, SendPayout, Resolve, SettlePending, SeeReceipt, BalanceTimer, IdleTimer, SeePayment,
      SeeBalance, EndConnection,
      OpenConnection, Spawn, SendRtp, Restarted, EndPoll, ProbeTimer, RelogTimer, RelogWhenIdle, CheckManualPlay,
      CycleConnection, GapFits, SeeCooldown, TeleportSettled, SetTransferring, Stop, Tick;
    var w := s.worker;
    match did {
      case Polls(alive) => ConnectionsKeepQuits(w, 0, alive);
      case BalanceDue | BalanceSeen | PaymentSeen | RtpDue => CommandsKeepQuits(w, 0);
      case IdleReadDue(gap) => CommandsKeepQuits(w, gap);
      case ConnectionEnds(_, gap) => ConnectionsKeepQuits(w, gap, false);
      case LoginStarts | Restarts => ConnectionsKeepQuits(w, 0, false);
      case Spawns(gap) => ConnectionsKeepQuits(w, gap, false);
      case Ticks(to) => SwitchesKeepQuits(w, false, to);
      case TransferSet(on) => SwitchesKeepQuits(w, on, 0);
      case _ => SwitchesKeepQuits(w, false, 0);
    }
  }

  lemma OnlyTheseLogOut(s: State, did: WorkerEvent)
    requires WorkerEnabled(s, did) && ApplyWorker(s, did).wire.quits > s.worker.wire.quits
    ensures MayLogOut(did)
  {
    hide WorkerEnabled, ApplyWorker;
    if did.ClaimReturns? || did.WaitEnds? || did.WindowEnds? || did.RefusalSeen? || did.ReceiptSeen? {
      PayoutEventsKeepQuits(s, did);
    } else if !MayLogOut(did) {
      OtherEventsKeepQuits(s, did);
    }
  }

  lemma ProbesSpareArmedPayouts(w: Worker, probe: Probe)
    requires Session(w) && probe in w.watch.probes && ProbeTimer(w, probe).wire.quits > w.wire.quits
    ensures w.desk.pending.None?
  {
    hide Commands, Window, Threw;
  }

  lemma RelogsSparePayouts(w: Worker, parked: bool)
    requires Session(w)
    requires RelogWhenIdle(w).wire.quits > w.wire.quits || RelogTimer(w).wire.quits > w.wire.quits
             || CheckManualPlay(w, parked).wire.quits > w.wire.quits
    ensures w.desk.pending.None? && !w.desk.phase.InFlight? && !w.desk.phase.Gap? && !w.transferring && !w.desk.polling
    ensures RelogWhenIdle(w).wire.quits > w.wire.quits ==>
            !w.link.teleporting && w.now >= w.watch.balanceReplyUntil
            && w.link.relogDue
  {
    hide Commands, Window, Strays, Balances, Clocks;
  }

  ghost predicate Watched(w: Worker) {
    Timed(w) && Probing(w)
  }

  /** In every state of every run the worker's balance reads are apart, and its silent probes counted. */
  lemma {:induction false} EveryWorkerIsWatched(run: seq<State>, events: seq<Event>, n: nat)
    requires IsRun(run, events) && n < |run|
    ensures Watched(run[n].worker)
  {
    hide Sound, Session, Watched, Enabled, Apply, Initial;
    if n == 0 {
      var now :| now >= 0 && run[0] == Initial(now);
      StartsWatched(now);
    } else {
      EveryWorkerIsWatched(run, events, n - 1);
      EveryStateIsSound(run, events, n - 1);
      StepKeepsWatched(run[n - 1], events[n - 1]);
    }
  }

  lemma StartsWatched(now: int)
    ensures Watched(Initial(now).worker)
  {
    InitiallyTimed(now);
    InitiallyProbing(now);
    hide Timed, Probing;
  }

  lemma StepKeepsWatched(s: State, e: Event)
    requires Sound(s) && Watched(s.worker) && Enabled(s, e)
    ensures Watched(Apply(s, e).worker)
  {
    hide Safe, Session, Proven, Timed, Probing, ApplyGateway, ApplyWorker, GatewayEnabled, WorkerEnabled, After;
    match e {
      case AtGateway(event, now) =>
      case AtWorker(did) =>
        WorkerKeepsTimed(s, did);
        WorkerKeepsProbing(s, did);
        AfterIsWorker(s, ApplyWorker(s, did));
      case AtServer(sent, fate) =>
    }
  }

  /**
   * In flight means safe. With a /pay out and unanswered the worker does not log itself out, whatever
   * an earlier write that threw has left behind. And while an entry is armed the one thing that logs it out
   * is other work ending with a reconnect, next to the entry of a thrown write already reported.
   */
  lemma InFlightMeansSafe(run: seq<State>, events: seq<Event>, n: nat)
    requires IsRun(run, events) && n < |events|
    ensures run[n + 1].worker.wire.quits > run[n].worker.wire.quits ==>
              events[n].AtWorker? && !run[n].worker.desk.phase.InFlight?
    ensures run[n].worker.desk.pending.Some? ==>
              (run[n + 1].worker.wire.quits > run[n].worker.wire.quits <==>
                 events[n] == AtWorker(OtherWorkEnds(true)) && run[n].worker.link.conn.Some?)
    ensures run[n].worker.desk.pending.Some? && events[n] == AtWorker(OtherWorkEnds(true)) ==> Threw(run[n].worker)
  {
    EveryStateIsSound(run, events, n);
    EveryWorkerIsWatched(run, events, n);
    var s, e := run[n], events[n];
    assert Enabled(s, e) && run[n + 1] == Apply(s, e) by { hide Sound, Watched, Enabled, Apply; }
    hide IsRun, Watched;
    if e.AtWorker? {
      assert WorkerEnabled(s, e.did) && run[n + 1].worker == ApplyWorker(s, e.did) by {
        hide WorkerEnabled, ApplyWorker, Sound;
      }
      hide Enabled, Apply;
      StepInFlight(s, e.did);
    } else {
      assert run[n + 1].worker == s.worker by { hide GatewayEnabled, ApplyGateway, Sound; }
    }
    hide Session, Safe, Proven, Sound, WorkerEnabled, ApplyWorker, Threw, Enabled, Apply;
  }

  lemma PollEndsSpareEntries(w: Worker, delivered: bool)
    requires Session(w)
    ensures w.desk.phase.Reporting? && EndReport(w, delivered).wire.quits > w.wire.quits ==> w.desk.pending.None?
    ensures EndOtherJob(w, delivered).wire.quits > w.wire.quits <==> delivered && w.link.conn.Some?
  {
    hide Commands, Clocks, Phases, Strays, Balances, EntryOk, InItsSession, ArmedFor;
  }

  lemma StepInFlight(s: State, did: WorkerEvent)
    requires Session(s.worker) && Watched(s.worker) && WorkerEnabled(s, did)
    ensures ApplyWorker(s, did).wire.quits > s.worker.wire.quits ==> !s.worker.desk.phase.InFlight?
    ensures s.worker.desk.pending.Some? ==>
              (ApplyWorker(s, did).wire.quits > s.worker.wire.quits <==>
                   did == OtherWorkEnds(true)
                   && s.worker.link.conn.Some?)
    ensures s.worker.desk.pending.Some? && did == OtherWorkEnds(true) ==> Threw(s.worker)
  {
    hide Watched, Session, Threw, ApplyWorker, WorkerEnabled;
    LeftoverWasThrown(s.worker);
    if did.OtherWorkEnds? {
      PollEndStep(s, did, did.reconnect);
    } else if ApplyWorker(s, did).wire.quits > s.worker.wire.quits {
      OnlyTheseLogOut(s, did);
      match did {
        case ProbeDue(probe) => ProbeStep(s, probe);
        case RelogDue => LogoutStep(s, did, false);
        case RelogRetried => LogoutStep(s, did, false);
        case ManualPlayChecked(parked) => LogoutStep(s, did, parked);
        case ReportEnds(delivered) => PollEndStep(s, did, delivered);
      }
    }
  }

  lemma ProbeStep(s: State, probe: Probe)
    requires Session(s.worker) && Watched(s.worker) && WorkerEnabled(s, ProbeDue(probe))
    requires ApplyWorker(s, ProbeDue(probe)).wire.quits > s.worker.wire.quits
    ensures s.worker.desk.pending.None? && !s.worker.desk.phase.InFlight?
  {
    hide Session, Timed, Probing, ProbeTimer;
    ProbesSpareArmedPayouts(s.worker, probe);
    if s.worker.desk.phase.InFlight? {
      ProbesSpareFlights(s.worker, probe);
    }
  }

  lemma LogoutStep(s: State, did: WorkerEvent, parked: bool)
    requires Session(s.worker) && WorkerEnabled(s, did) && did in {RelogDue, RelogRetried, ManualPlayChecked(parked)}
    requires ApplyWorker(s, did).wire.quits > s.worker.wire.quits
    ensures s.worker.desk.pending.None? && !s.worker.desk.phase.InFlight?
  {
    hide Session, RelogTimer, RelogWhenIdle, CheckManualPlay;
    RelogsSparePayouts(s.worker, parked);
  }

  lemma PollEndStep(s: State, did: WorkerEvent, reconnect: bool)
    requires Session(s.worker) && WorkerEnabled(s, did) && did in {OtherWorkEnds(reconnect), ReportEnds(reconnect)}
    ensures !s.worker.desk.phase.InFlight?
    ensures did.ReportEnds? && ApplyWorker(s, did).wire.quits > s.worker.wire.quits ==> s.worker.desk.pending.None?
    ensures did.OtherWorkEnds? ==>
            (ApplyWorker(s, did).wire.quits > s.worker.wire.quits <==> reconnect && s.worker.link.conn.Some?)
  {
    hide Session, EndReport, EndOtherJob;
    PollEndsSpareEntries(s.worker, reconnect);
  }

  lemma LeftoverWasThrown(w: Worker)
    requires Session(w)
    ensures w.desk.pending.Some? && !w.desk.phase.InFlight? ==> Threw(w)
  {
    hide Threw, Commands, Balances, Clocks, Phases;
  }

  /** No login starts while an entry is armed, and an armed entry seen on a connection is of that connection. */
  lemma NoPayoutOutlivesItsSession(run: seq<State>, events: seq<Event>, n: nat)
    requires IsRun(run, events) && n < |events| && events[n].AtWorker?
    ensures events[n].did.LoginStarts? ==> run[n].worker.desk.pending.None?
    ensures events[n].did.ReceiptSeen? && run[n].worker.desk.pending.Some? ==>
              var w := run[n].worker;
              && IsPay(run[n], w.desk.pending.value.sent) && IsPay(run[n], events[n].did.sent)
              && w.wire.log[w.desk.pending.value.sent].conn == w.wire.log[events[n].did.sent].conn
  {
    hide IsRun, Sound, WorkerEnabled, EntryOk, IsPay;
    RunLength(run, events);
    EveryStateIsSound(run, events, n);
    StepsAtWorker(run, events, n);
    EntryIsOk(run[n]);
    if events[n].did.LoginStarts? {
      LoginFindsNothingArmed(run[n]);
    } else if events[n].did.ReceiptSeen? && run[n].worker.desk.pending.Some? {
      ReceiptFindsItsSession(run[n], events[n].did.sent);
    }
  }

  lemma StepsAtWorker(run: seq<State>, events: seq<Event>, n: nat)
    requires IsRun(run, events) && n < |events| && events[n].AtWorker?
    ensures n < |run| && WorkerEnabled(run[n], events[n].did)
  {
    hide WorkerEnabled;
  }

  lemma EntryIsOk(s: State)
    requires Sound(s)
    ensures Session(s.worker) && (s.worker.desk.pending.Some? ==> EntryOk(s.worker, s.worker.desk.pending.value))
  {
    hide Safe, Proven, EntryOk, Commands, Strays, Balances, Clocks, Phases;
  }

  lemma ReceiptFindsItsSession(s: State, sent: nat)
    requires WorkerEnabled(s, ReceiptSeen(sent)) && s.worker.desk.pending.Some?
    requires EntryOk(s.worker, s.worker.desk.pending.value)
    ensures var w := s.worker;
            && IsPay(s, w.desk.pending.value.sent) && IsPay(s, sent)
            && w.wire.log[w.desk.pending.value.sent].conn == w.wire.log[sent].conn
  {
  }

  // Confirmations.

  /**
   * A withdrawal marked paid on a receipt has a /pay of its own and a /pay that moved money: to the same
   * player, on the same connection, shown as an amount that covers what the withdrawal asked for.
   */
  lemma PaidOnReceiptIsProven(run: seq<State>, events: seq<Event>, n: nat, id: Id)
    requires IsRun(run, events) && n < |run|
    requires id in run[n].tables.rows && run[n].tables.rows[id].paidBy == Some(FromReceipt)
    ensures id in run[n].tables.jobs
    ensures exists own, seen ::
              && IsPayFor(run[n], own, id) && Covers(run[n], own, seen)
              && run[n].worker.wire.log[own].command.job.payee == run[n].tables.jobs[id].payee
              && run[n].worker.wire.log[own].command.job.amount == run[n].tables.jobs[id].amount
  {
    EveryStateIsSound(run, events, n);
    hide IsRun, Safe, Session, Covers;
    var s := run[n];
    assert Reported(s, id);
    var k :| 0 <= k < |s.worker.wire.posted| && s.worker.wire.posted[k].job == Withdrawal(id)
        && s.worker.wire.posted[k].outcome == Completed;
    assert Confirmed(s, s.worker.wire.posted[k]);
    var own, seen :| IsPay(s, own) && s.worker.wire.log[own].command.job.ref == Withdrawal(id) && Covers(s, own, seen);
    assert IsPayFor(s, own, id);
    assert OnTerms(s.tables, s.worker.wire.log[own].command.job);
  }

  /** When no other /pay, of any kind, went to that player in that session, the money that moved was this one's. */
  lemma PaidOnReceiptWasPaid(run: seq<State>, events: seq<Event>, n: nat, id: Id)
    requires IsRun(run, events) && n < |run|
    requires id in run[n].tables.rows && run[n].tables.rows[id].paidBy == Some(FromReceipt)
    requires forall i, j | IsPayFor(run[n], i, id) && IsPay(run[n], j)
                           && run[n].worker.wire.log[j].command.job.payee == run[n].worker.wire.log[i].command.job.payee
                           && run[n].worker.wire.log[j].conn == run[n].worker.wire.log[i].conn :: IsPayFor(run[n], j, id)
    ensures HasMoved(run[n], id)
  {
    PaidOnReceiptIsProven(run, events, n, id);
    hide IsRun;
    var own, seen :| IsPayFor(run[n], own, id) && Covers(run[n], own, seen);
    assert IsPayFor(run[n], seen, id);
  }

  /** A withdrawal marked paid from the bot's balance was paid. */
  lemma PaidFromBalanceWasPaid(run: seq<State>, events: seq<Event>, n: nat, id: Id)
    requires IsRun(run, events) && n < |run|
    requires id in run[n].tables.rows && run[n].tables.rows[id].paidBy == Some(FromBalance)
    ensures HasMoved(run[n], id)
  {
    EveryStateIsSound(run, events, n);
    hide IsRun, Shape, Leases, Once, Session, Proven, OutOfReach, Parked, Clear, HasMoved;
    assert RowOk(run[n], id, run[n].tables.rows[id], JobAt(run[n].tables, id), Waits(run[n].tables, id));
  }
}
