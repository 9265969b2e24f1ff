/** A payout that is over: no /pay is written for it any more. */
module PayoutEndings {
  import opened BalanceEvidence
  import opened Gateway
  import opened Options
  import opened PayoutGatewaySteps
  import opened PayoutInvariant
  import opened PayoutSession
  import opened PayoutSystem
  import opened PayoutWorkerSteps
  import opened PayoutSafety
  import opened WorkerModel

  /** An attempt at this withdrawal may still write its /pay. */
  ghost predicate MayWrite(s: State, id: Id) {
    Live(s, id) && !s.worker.desk.phase.InFlight?
  }

  predicate Ended(g: Tables, id: Id) {
    || (id in g.jobs && Dead(g.jobs[id]))
    || (id in g.rows && g.rows[id].Settled() && Parked(JobAt(g, id)))
  }

  /** Nothing of this withdrawal is left to write: no lease can be given out, and no attempt waits to write. */
  ghost predicate Over(s: State, id: Id) {
    Ended(s.tables, id) && !MayWrite(s, id)
  }

  lemma ClaimsReviveNothing(s: State, event: EventId, choice: Given, now: int, id: Id)
    requires Shape(s) && Over(s, id)
    ensures !MayWrite(With(s, ClaimJob(s.tables, event, choice, now)), id)
  {
  }

  lemma GatewayKeepsOver(s: State, e: GatewayEvent, now: int, id: Id)
    requires Shape(s) && GatewayEnabled(s, e) && Over(s, id)
    ensures !MayWrite(With(s, ApplyGateway(s, e, now)), id)
  {
    hide RequestWithdrawal, HoldWithdrawal, ApproveWithdrawal, LandRelease, GiveUpRelease, RetryRelease, RejectWithdrawal,
      HandleResult, ExpireLeases, WakeFundsQueue, QuarantineBot, ResolveReview, SettleFromBalance, VerdictFor, AllDecided,
      Imitates, ClaimJob, Shape, Ended;
    match e {
      case ClaimArrives(event, choice) => ClaimsReviveNothing(s, event, choice, now, id);
      case _ => ClaimsStay(s, e, now);
    }
  }

  lemma ClaimsStay(s: State, e: GatewayEvent, now: int)
    requires GatewayEnabled(s, e) && !e.ClaimArrives?
    ensures ApplyGateway(s, e, now).claims == s.tables.claims
  {
    hide VerdictFor, AllDecided, Imitates;
  }

  /** What the worker holds it held before; what it writes for a withdrawal it held the lease of. */
  ghost predicate OnlyHeld(s: State, v: Worker, id: Id) {
    && (Live(After(s, v), id) ==> Live(s, id)) && (MayWrite(After(s, v), id) ==> MayWrite(s, id))
    && (v.wire.log == s.worker.wire.log
        || exists sent: Sent :: && v.wire.log == s.worker.wire.log + [sent]
                                && (sent.command.Pay? && sent.command.job.ref == Withdrawal(id) ==> MayWrite(s, id)))
  }

  lemma LettingGoOnlyHeld(s: State, v: Worker, id: Id)
    requires LetsGo(s.worker, v)
    ensures OnlyHeld(s, v, id)
  {
  }

  lemma PollOnlyHeld(s: State, alive: bool, id: Id)
    requires Shape(s)
    ensures OnlyHeld(s, PollJobs(s.worker, alive), id)
  {
    hide MayClaim;
  }

  lemma ClaimReturnsOnlyHeld(s: State, id: Id)
    requires s.worker.desk.phase.Claiming? && s.worker.desk.phase.event in s.tables.claims
    ensures OnlyHeld(s, ClaimedJob(s, s.worker), id)
  {
    PollsThatEndLetGo(s.worker, false);
    LettingGoOnlyHeld(s, EndPoll(s.worker), id);
    LettingGoOnlyHeld(s, StartOtherJob(s.worker), id);
    hide OnlyHeld, StartPayout, EndPoll, StartOtherJob, LetsGo;
    match s.tables.claims[s.worker.desk.phase.event] {
      case ForPayout(found) =>
        if found in s.tables.jobs {
          var job := s.tables.jobs[found];
          StartPayoutOnlyHeld(s, Claimed(Withdrawal(found), s.worker.desk.phase.event, job.payee, job.amount), id);
        }
      case ForTransfer(payee, amount) =>
        StartPayoutOnlyHeld(s, Claimed(OtherMoney, s.worker.desk.phase.event, payee, amount), id);
      case _ =>
    }
  }

  lemma StartPayoutOnlyHeld(s: State, job: Claimed, id: Id)
    requires s.worker.desk.phase.Claiming? && LiveLease(s) == LeaseOf(job)
    ensures OnlyHeld(s, StartPayout(s.worker, job), id)
  {
    SoonLetsGo(s.worker, BALANCE_AFTER_MOVE_MS + PAYOUT_CONFIRM_MS);
    hide ClearAt, BalanceSoon;
  }

  lemma WriteOnlyHeld(s: State, retryable: bool, id: Id)
    requires s.worker.desk.phase.Gap?
    ensures OnlyHeld(s, HoldBack(s.worker, retryable), id)
    ensures s.worker.link.conn.Some? ==>
              && OnlyHeld(s, WritePayout(s.worker), id)
              && OnlyHeld(s, Report(WritePayout(s.worker), s.worker.desk.phase.job, Failed(false, PayoutFailed),
                 false), id)
  {
    var w := s.worker;
    if w.link.conn.Some? {
      assert WritePayout(w).wire.log == w.wire.log + [WritePayout(w).wire.log[|w.wire.log|]];
    }
  }

  lemma SendPayoutOnlyHeld(s: State, throws: bool, id: Id)
    requires s.worker.desk.phase.Gap?
    ensures OnlyHeld(s, SendPayout(s.worker, throws), id)
  {
    hide OnlyHeld, HoldBack, WritePayout, Report, AnswerDue;
    WriteOnlyHeld(s, ConnectionLive(s.worker, s.worker.desk.phase.conn), id);
  }

  lemma ConcludeOnlyHeld(s: State, timer: TimerId, answer: Answer, id: Id)
    requires s.worker.desk.phase.InFlight?
    ensures OnlyHeld(s, Conclude(Disarmed(s.worker, timer), s.worker.desk.phase.job, answer), id)
  {
    hide Conclusion;
  }

  lemma ResolveOnlyHeld(s: State, timer: TimerId, answer: Answer, id: Id)
    ensures OnlyHeld(s, Resolve(Disarmed(s.worker, timer), timer, answer), id)
  {
    var u := Disarmed(s.worker, timer);
    assert u.desk.phase == s.worker.desk.phase && LetsGo(s.worker, u);
    LettingGoOnlyHeld(s, u, id);
    hide OnlyHeld, Conclude, Disarmed;
    if s.worker.desk.phase.InFlight? {
      ConcludeOnlyHeld(s, timer, answer, id);
    }
  }

  lemma RtpOnlyHeld(s: State, id: Id)
    ensures OnlyHeld(s, SendRtp(s.worker), id)
  {
    var w := s.worker;
    assert SendRtp(w) == w || SendRtp(w).wire.log == w.wire.log + [SendRtp(w).wire.log[|w.wire.log|]];
  }

  lemma AskingOnlyHeld(s: State, v: Worker, id: Id)
    requires AsksAtMost(s.worker, v)
    ensures OnlyHeld(s, v, id)
  {
  }

  lemma CooldownOnlyHeld(s: State, id: Id)
    ensures OnlyHeld(s, SeeCooldown(s.worker), id)
  {
  }

  lemma ReceiptOnlyHeld(s: State, payee: Name, displayed: string, id: Id)
    ensures OnlyHeld(s, SeeReceipt(s.worker, payee, displayed), id)
  {
    LettingGoOnlyHeld(s, s.worker, id);
    hide OnlyHeld, Resolve;
    if s.worker.desk.pending.Some? {
      ResolveOnlyHeld(s, s.worker.desk.pending.value.timer, Receipt(displayed), id);
    }
  }

  predicate IsPayoutEvent(e: WorkerEvent) {
    e.Polls? || e.ClaimReturns? || e.WaitEnds? || e.WindowEnds? || e.RefusalSeen? || e.ReceiptSeen? || e.CooldownSeen?
  }

  lemma PayoutEventOnlyHeld(s: State, e: WorkerEvent, id: Id)
    requires Shape(s) && WorkerEnabled(s, e) && IsPayoutEvent(e)
    ensures OnlyHeld(s, ApplyWorker(s, e), id)
  {
    LettingGoOnlyHeld(s, s.worker, id);
    hide OnlyHeld, LetsGo, PollJobs, ClaimedJob, SendPayout, Resolve, SeeReceipt, SeeCooldown, GapFits, Shape;
    var w := s.worker;
    match e {
      case Polls(alive) => PollOnlyHeld(s, alive, id);
      case ClaimReturns => ClaimReturnsOnlyHeld(s, id);
      case WaitEnds(throws) => SendPayoutOnlyHeld(s, throws, id);
      case WindowEnds(timer) => ResolveOnlyHeld(s, timer, NoAnswer, id);
      case RefusalSeen(refusal) =>
        if w.desk.pending.Some? {
          ResolveOnlyHeld(s, w.desk.pending.value.timer, RefusedFor(refusal), id);
        }
      case ReceiptSeen(seen) => ReceiptOnlyHeld(s, w.wire.log[seen].command.job.payee, s.fates[seen].displayed, id);
      case CooldownSeen => CooldownOnlyHeld(s, id);
    }
  }

  lemma WorkerOnlyHeld(s: State, e: WorkerEvent, id: Id)
    requires Shape(s) && WorkerEnabled(s, e)
    ensures OnlyHeld(s, ApplyWorker(s, e), id)
  {
    hide OnlyHeld, LetsGo, AsksAtMost, BalanceTimer, IdleTimer, SendRtp, GapFits, Shape;
    if IsPayoutEvent(e) {
      hide WorkerEnabled, ApplyWorker;
      PayoutEventOnlyHeld(s, e, id);
    } else if e.BalanceDue? {
      TimersAsk(s.worker, 0);
      AskingOnlyHeld(s, BalanceTimer(s.worker), id);
    } else if e.IdleReadDue? {
      TimersAsk(s.worker, e.gap);
      AskingOnlyHeld(s, IdleTimer(s.worker, e.gap), id);
    } else if e.RtpDue? {
      RtpOnlyHeld(s, id);
    } else {
      hide WorkerEnabled, ApplyWorker;
      LettingGo(s, e);
      LettingGoOnlyHeld(s, ApplyWorker(s, e), id);
    }
  }

  lemma EndedStays(g: Tables, h: Tables, id: Id)
    requires Settles(g, h) && Ended(g, id)
    ensures Ended(h, id)
  {
    assert SettlesOne(g, h, id);
  }

  /** Once it is over it stays over, and no further command is written for it. */
  lemma StepKeepsOver(s: State, e: Event, id: Id)
    requires Shape(s) && Enabled(s, e) && Over(s, id)
    ensures Over(Apply(s, e), id)
    ensures forall i | IsPayFor(Apply(s, e), i, id) :: IsPayFor(s, i, id)
  {
    StepSettles(s, e);
    EndedStays(s.tables, Apply(s, e).tables, id);
    hide Ended, Settles;
    match e {
      case AtGateway(event, now) => GatewayKeepsOver(s, event, now, id);
      case AtWorker(did) => WorkerOnlyHeld(s, did, id);
      case _ =>
    }
    hide Shape, GatewayEnabled, WorkerEnabled, ApplyWorker, ApplyGateway;
  }

  lemma {:induction false} DeadStays(path: seq<State>, events: seq<Event>, n: nat, m: nat, id: Id)
    requires IsPath(path, events) && n <= m < |path|
    requires id in path[n].tables.jobs && Dead(path[n].tables.jobs[id])
    ensures id in path[m].tables.jobs && Dead(path[m].tables.jobs[id])
  {
    hide Enabled, Apply;
    if n < m {
      DeadStays(path, events, n, m - 1, id);
      StepSettles(path[m - 1], events[m - 1]);
      assert SettlesOne(path[m - 1].tables, path[m].tables, id);
    }
  }
}
