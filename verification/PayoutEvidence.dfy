/**
 * A withdrawal is marked paid on a receipt only if the server really paid that player, in the session
 * of this withdrawal's own /pay, the amount asked for.
 */
module PayoutEvidence {
  import opened BalanceEvidence
  import opened Gateway
  import opened MoneyReading
  import opened Options
  import opened PayoutGatewaySteps
  import opened PayoutInvariant
  import opened PayoutSession
  import opened PayoutSystem
  import opened PayoutWorkerSteps
  import opened WorkerModel

  /** `seen` is a /pay that moved money the way the /pay `own` asked for. */
  ghost predicate Covers(s: State, own: int, seen: int) {
    && IsPay(s, own) && IsPay(s, seen) && seen < |s.fates| && s.fates[seen].Moved?
    && s.worker.wire.log[seen].conn == s.worker.wire.log[own].conn
    && s.worker.wire.log[seen].command.job.payee == s.worker.wire.log[own].command.job.payee
    && IsAmountText(s.worker.wire.log[own].command.job.amount)
    && CoversRequestedAmount(s.fates[seen].displayed, s.worker.wire.log[own].command.job.amount)
  }

  ghost predicate Confirmed(s: State, r: Result) {
    exists own, seen ::
      && IsPay(s, own) && s.worker.wire.log[own].command.job.ref == r.job
         && s.worker.wire.log[own].command.job.token == r.token
      && Covers(s, own, seen)
  }

  ghost predicate Reported(s: State, id: Id) {
    exists k :: 0 <= k < |s.worker.wire.posted| && s.worker.wire.posted[k].job == Withdrawal(id)
                && s.worker.wire.posted[k].outcome == Completed
  }

  /** The worker pays whom, and what, the withdrawal's job says, or the answer to its claim. */
  predicate OnTerms(g: Tables, job: Claimed) {
    match job.ref
    case Withdrawal(id) => id in g.jobs && job.payee == g.jobs[id].payee && job.amount == g.jobs[id].amount
    case OtherMoney => job.token in g.claims && g.claims[job.token] == ForTransfer(job.payee, job.amount)
  }

  ghost predicate Proven(s: State) {
    && (forall k | 0 <= k < |s.worker.wire.posted| && s.worker.wire.posted[k].outcome == Completed ::
          Confirmed(s, s.worker.wire.posted[k]))
    && (forall id | id in s.tables.rows && s.tables.rows[id].paidBy == Some(FromReceipt) :: Reported(s, id))
    && (forall i | IsPay(s, i) :: OnTerms(s.tables, s.worker.wire.log[i].command.job))
    && (s.worker.desk.phase.Gap? || s.worker.desk.phase.InFlight? ==> OnTerms(s.tables, s.worker.desk.phase.job))
  }

  /** Everything known so far stays known: commands, fates, reports and the terms of every job only grow. */
  ghost predicate Grows(s: State, t: State) {
    && |s.worker.wire.log| <= |t.worker.wire.log|
       && (forall i | 0 <= i < |s.worker.wire.log| :: t.worker.wire.log[i] == s.worker.wire.log[i])
    && |s.fates| <= |t.fates| && (forall i | 0 <= i < |s.fates| && s.fates[i].Moved? :: t.fates[i] == s.fates[i])
    && |s.worker.wire.posted| <= |t.worker.wire.posted|
    && (forall k | 0 <= k < |s.worker.wire.posted| :: t.worker.wire.posted[k] == s.worker.wire.posted[k])
    && (forall id | id in s.tables.jobs ::
          && id in t.tables.jobs && t.tables.jobs[id].payee == s.tables.jobs[id].payee
          && t.tables.jobs[id].amount == s.tables.jobs[id].amount)
    && (forall event | event in s.tables.claims ::
          event in t.tables.claims && t.tables.claims[event] == s.tables.claims[event])
  }

  lemma ConfirmedGrows(s: State, t: State, r: Result)
    requires Grows(s, t) && Confirmed(s, r)
    ensures Confirmed(t, r)
  {
    hide CoversRequestedAmount, IsAmountText;
    var own, seen :| && IsPay(s, own) && s.worker.wire.log[own].command.job.ref == r.job
                     && s.worker.wire.log[own].command.job.token == r.token && Covers(s, own, seen);
    assert IsPay(t, own) && Covers(t, own, seen);
  }

  lemma ReportedGrows(s: State, t: State, id: Id)
    requires Grows(s, t) && Reported(s, id)
    ensures Reported(t, id)
  {
    var k :| 0 <= k < |s.worker.wire.posted| && s.worker.wire.posted[k].job == Withdrawal(id)
        && s.worker.wire.posted[k].outcome == Completed;
    assert t.worker.wire.posted[k] == s.worker.wire.posted[k];
  }

  /** Only new reports, new payments and new commands need a new reason. */
  lemma ProvenGrows(s: State, t: State)
    requires Proven(s) && Grows(s, t)
    requires forall k | |s.worker.wire.posted| <= k < |t.worker.wire.posted|
             && t.worker.wire.posted[k].outcome == Completed ::
               Confirmed(t, t.worker.wire.posted[k])
    requires forall id | id in t.tables.rows && t.tables.rows[id].paidBy == Some(FromReceipt) ::
               (id in s.tables.rows && s.tables.rows[id].paidBy == Some(FromReceipt)) || Reported(t, id)
    requires forall i | |s.worker.wire.log| <= i && IsPay(t, i) :: OnTerms(t.tables, t.worker.wire.log[i].command.job)
    requires t.worker.desk.phase.Gap? || t.worker.desk.phase.InFlight? ==> OnTerms(t.tables, t.worker.desk.phase.job)
    ensures Proven(t)
  {
    hide Confirmed, Reported;
    forall k | 0 <= k < |t.worker.wire.posted| && t.worker.wire.posted[k].outcome == Completed
      ensures Confirmed(t, t.worker.wire.posted[k])
    {
      if k < |s.worker.wire.posted| {
        ConfirmedGrows(s, t, s.worker.wire.posted[k]);
      }
    }
    forall id | id in t.tables.rows && t.tables.rows[id].paidBy == Some(FromReceipt)
      ensures Reported(t, id)
    {
      if id in s.tables.rows && s.tables.rows[id].paidBy == Some(FromReceipt) {
        ReportedGrows(s, t, id);
      }
    }
    forall i | IsPay(t, i)
      ensures OnTerms(t.tables, t.worker.wire.log[i].command.job)
    {
      if i < |s.worker.wire.log| {
        assert IsPay(s, i);
      }
    }
  }

  // The worker.

  /**
   * The worker wrote, reported and took up only what it should have: a confirmation it reports is proven,
   * and a report of "not moved" is true of everything ever written for that withdrawal.
   */
  ghost predicate Honest(s: State, v: Worker) {
    && (v.wire.log == s.worker.wire.log
        || exists sent: Sent :: && v.wire.log == s.worker.wire.log + [sent]
                                && (sent.command.Pay? ==> OnTerms(s.tables, sent.command.job)))
    && (v.wire.posted == s.worker.wire.posted
        || exists r: Result :: && v.wire.posted == s.worker.wire.posted + [r]
                               && (r.outcome == Completed ==> Confirmed(s, r))
                               && (SaysNotMoved(r.outcome) ==> ClearRef(s, r.job)))
    && (v.desk.phase.Gap? || v.desk.phase.InFlight? ==> OnTerms(s.tables, v.desk.phase.job))
  }

  lemma AfterGrows(s: State, v: Worker)
    requires |s.fates| == |s.worker.wire.log| && Honest(s, v)
    ensures Grows(s, After(s, v))
  {
  }

  lemma HonestKeepsProven(s: State, v: Worker)
    requires Proven(s) && |s.fates| == |s.worker.wire.log| && Honest(s, v)
    ensures Proven(After(s, v))
  {
    var t := After(s, v);
    AfterGrows(s, v);
    hide Confirmed, Reported, OnTerms;
    forall k | |s.worker.wire.posted| <= k < |t.worker.wire.posted| && t.worker.wire.posted[k].outcome == Completed
      ensures Confirmed(t, t.worker.wire.posted[k])
    {
      ConfirmedGrows(s, t, t.worker.wire.posted[k]);
    }
    forall id | id in t.tables.rows && t.tables.rows[id].paidBy == Some(FromReceipt)
      ensures Reported(t, id)
    {
      ReportedGrows(s, t, id);
    }
    SameTerms(s, v);
    ProvenGrows(s, t);
  }

  lemma SameTerms(s: State, v: Worker)
    requires Honest(s, v)
    ensures forall i | |s.worker.wire.log| <= i && IsPay(After(s, v), i) :: OnTerms(s.tables, v.wire.log[i].command.job)
  {
    hide OnTerms, Confirmed;
  }

  lemma LettingGoIsHonest(s: State, v: Worker)
    requires Proven(s) && LetsGo(s.worker, v)
    ensures Honest(s, v)
  {
    hide Confirmed, Reported, OnTerms;
  }

  lemma PollIsHonest(s: State, alive: bool)
    requires Proven(s)
    ensures Honest(s, PollJobs(s.worker, alive))
  {
    hide Confirmed, Reported, OnTerms, MayClaim;
  }

  lemma StartPayoutIsHonest(s: State, job: Claimed)
    requires Proven(s) && s.worker.desk.phase.Claiming? && OnTerms(s.tables, job)
    ensures Honest(s, StartPayout(s.worker, job))
  {
    hide Confirmed, Reported, OnTerms, ClearAt, BalanceSoon;
    SoonLetsGo(s.worker, BALANCE_AFTER_MOVE_MS + PAYOUT_CONFIRM_MS);
  }

  lemma ClaimReturnsIsHonest(s: State)
    requires Proven(s) && s.worker.desk.phase.Claiming? && s.worker.desk.phase.event in s.tables.claims
    ensures Honest(s, ClaimedJob(s, s.worker))
  {
    var w := s.worker;
    PollsThatEndLetGo(w, false);
    LettingGoIsHonest(s, EndPoll(w));
    LettingGoIsHonest(s, StartOtherJob(w));
    hide Honest, Proven, EndPoll, StartPayout, StartOtherJob;
    match s.tables.claims[w.desk.phase.event] {
      case ForPayout(id) =>
        if id in s.tables.jobs {
          var job := s.tables.jobs[id];
          StartPayoutIsHonest(s, Claimed(Withdrawal(id), w.desk.phase.event, job.payee, job.amount));
        }
      case ForTransfer(payee, amount) => StartPayoutIsHonest(s, Claimed(OtherMoney, w.desk.phase.event, payee, amount));
      case _ =>
    }
  }

  lemma HoldBackIsHonest(s: State, retryable: bool)
    requires Proven(s) && s.worker.desk.phase.Gap? && ClearRef(s, s.worker.desk.phase.job.ref)
    ensures Honest(s, HoldBack(s.worker, retryable))
  {
    hide ClearRef, Confirmed, Reported, OnTerms;
    var v := HoldBack(s.worker, retryable);
    assert v.wire.posted == s.worker.wire.posted + [v.wire.posted[|s.worker.wire.posted|]];
  }

  lemma WriteIsHonest(s: State)
    requires Proven(s) && s.worker.desk.phase.Gap? && s.worker.link.conn.Some?
    ensures Honest(s, WritePayout(s.worker))
    ensures Honest(s, Report(WritePayout(s.worker), s.worker.desk.phase.job, Failed(false, PayoutFailed), false))
  {
    hide Confirmed, Reported, OnTerms;
    var v := WritePayout(s.worker);
    assert v.wire.log == s.worker.wire.log + [v.wire.log[|s.worker.wire.log|]];
    assert v.wire.posted == s.worker.wire.posted;
  }

  lemma SendPayoutIsHonest(s: State, throws: bool)
    requires Safe(s) && Proven(s) && s.worker.desk.phase.Gap?
    ensures Honest(s, SendPayout(s.worker, throws))
  {
    StartsClear(s);
    hide Safe, ClearRef, Honest, Proven, HoldBack, WritePayout, Report, AnswerDue;
    var w := s.worker;
    HoldBackIsHonest(s, ConnectionLive(w, w.desk.phase.conn));
    if ConnectionLive(w, w.desk.phase.conn) {
      WriteIsHonest(s);
    }
  }

  lemma ConcludeIsHonest(s: State, timer: TimerId, answer: Answer)
    requires Proven(s) && s.worker.desk.phase.InFlight?
    requires Conclusion(s.worker.desk.phase.job, answer, s.worker.desk.payoutCooldownSeen) == Completed ==>
               forall event :: Confirmed(s,
                 Result(event, s.worker.desk.phase.job.ref, s.worker.desk.phase.job.token, Completed))
    requires SaysNotMoved(Conclusion(s.worker.desk.phase.job, answer, s.worker.desk.payoutCooldownSeen)) ==>
               ClearRef(s, s.worker.desk.phase.job.ref)
    ensures Honest(s, Conclude(Disarmed(s.worker, timer), s.worker.desk.phase.job, answer))
  {
    hide ClearRef, Confirmed, Reported, OnTerms, Conclusion;
    var w := s.worker;
    var v := Conclude(Disarmed(w, timer), w.desk.phase.job, answer);
    assert v.wire.posted == w.wire.posted + [v.wire.posted[|w.wire.posted|]];
  }

  /** A refusal or a seen cooldown clears the one command in question; nothing else says "not moved". */
  lemma ConclusionIsTrue(s: State, answer: Answer)
    requires Safe(s) && s.worker.desk.phase.InFlight?
    requires answer.RefusedFor? ==> ClearRef(s, s.worker.desk.phase.job.ref)
    ensures SaysNotMoved(Conclusion(s.worker.desk.phase.job, answer, s.worker.desk.payoutCooldownSeen)) ==>
              ClearRef(s, s.worker.desk.phase.job.ref)
  {
    hide Safe, ClearRef, Conclusion;
    if SaysNotMoved(Conclusion(s.worker.desk.phase.job, answer, s.worker.desk.payoutCooldownSeen)) {
      NotMovedIsConcludedFrom(s.worker.desk.phase.job, answer, s.worker.desk.payoutCooldownSeen);
      if !answer.RefusedFor? {
        CooldownClears(s);
      }
    }
  }

  lemma ResolveIsHonest(s: State, timer: TimerId, answer: Answer)
    requires Safe(s) && Proven(s)
    requires s.worker.desk.phase.InFlight? && s.worker.desk.phase.timer == timer
             && Conclusion(s.worker.desk.phase.job, answer, s.worker.desk.payoutCooldownSeen) == Completed ==>
               forall event :: Confirmed(s,
                 Result(event, s.worker.desk.phase.job.ref, s.worker.desk.phase.job.token, Completed))
    requires s.worker.desk.phase.InFlight? && answer.RefusedFor? ==> ClearRef(s, s.worker.desk.phase.job.ref)
    ensures Honest(s, Resolve(Disarmed(s.worker, timer), timer, answer))
  {
    hide Safe, ClearRef;
    var w, u := s.worker, Disarmed(s.worker, timer);
    assert u.desk.phase == w.desk.phase;
    if w.desk.phase.InFlight? && w.desk.phase.timer == timer {
      ConclusionIsTrue(s, answer);
      ConcludeIsHonest(s, timer, answer);
    } else {
      assert LetsGo(w, u);
      LettingGoIsHonest(s, u);
    }
    hide Honest, Proven, Conclude, Conclusion, Confirmed, Disarmed;
  }

  lemma OnlyReceiptsComplete(job: Claimed, answer: Answer, cooldown: bool)
    requires Conclusion(job, answer, cooldown) == Completed
    ensures answer.Receipt? && IsAmountText(job.amount) && CoversRequestedAmount(answer.displayed, job.amount)
  {
    hide CoversRequestedAmount, IsAmountText;
  }

  lemma SilenceIsHonest(s: State, timer: TimerId, answer: Answer)
    requires Safe(s) && Proven(s) && !answer.Receipt?
    requires s.worker.desk.phase.InFlight? && answer.RefusedFor? ==> ClearRef(s, s.worker.desk.phase.job.ref)
    ensures Honest(s, Resolve(Disarmed(s.worker, timer), timer, answer))
  {
    hide Safe, ClearRef, Honest, Proven, Conclusion, Resolve, Disarmed, Confirmed;
    if s.worker.desk.phase.InFlight?
      && Conclusion(s.worker.desk.phase.job, answer, s.worker.desk.payoutCooldownSeen) == Completed {
      OnlyReceiptsComplete(s.worker.desk.phase.job, answer, s.worker.desk.payoutCooldownSeen);
    }
    ResolveIsHonest(s, timer, answer);
  }

  /** A receipt taken as this payout's answer came in this payout's own session, from this payout's player. */
  lemma ReceiptProves(s: State, seen: nat, event: EventId)
    requires Session(s.worker) && WorkerEnabled(s, ReceiptSeen(seen))
    requires s.worker.desk.phase.InFlight? && s.worker.desk.pending.Some?
             && s.worker.desk.pending.value.timer == s.worker.desk.phase.timer
    requires s.worker.desk.pending.value.payee == s.worker.wire.log[seen].command.job.payee
    requires Conclusion(s.worker.desk.phase.job, Receipt(s.fates[seen].displayed),
             s.worker.desk.payoutCooldownSeen) == Completed
    ensures Confirmed(s, Result(event, s.worker.desk.phase.job.ref, s.worker.desk.phase.job.token, Completed))
  {
    OnlyReceiptsComplete(s.worker.desk.phase.job, Receipt(s.fates[seen].displayed), s.worker.desk.payoutCooldownSeen);
    hide Commands, Strays, Balances, Phases, Clocks, Conclusion, CoversRequestedAmount, IsAmountText;
    var own := s.worker.desk.phase.sent;
    assert IsPay(s, own) && s.worker.wire.log[own].command.job == s.worker.desk.phase.job;
    assert Covers(s, own, seen);
  }

  lemma ReceiptIsHonest(s: State, seen: nat)
    requires Safe(s) && Proven(s) && Session(s.worker) && WorkerEnabled(s, ReceiptSeen(seen))
    ensures Honest(s, SeeReceipt(s.worker, s.worker.wire.log[seen].command.job.payee, s.fates[seen].displayed))
  {
    var w := s.worker;
    var payee, displayed := w.wire.log[seen].command.job.payee, s.fates[seen].displayed;
    if w.desk.pending.Some? && w.desk.pending.value.payee == payee {
      var timer := w.desk.pending.value.timer;
      if w.desk.phase.InFlight? && w.desk.phase.timer == timer
         && Conclusion(w.desk.phase.job, Receipt(displayed), w.desk.payoutCooldownSeen) == Completed {
        forall event
          ensures Confirmed(s, Result(event, w.desk.phase.job.ref, w.desk.phase.job.token, Completed))
        {
          ReceiptProves(s, seen, event);
        }
      }
      hide Safe, Honest, Proven, Session, Conclusion, Confirmed, Resolve;
      ResolveIsHonest(s, timer, Receipt(displayed));
    } else {
      hide Safe, Proven, Session;
      LettingGoIsHonest(s, w);
    }
  }

  lemma RtpIsHonest(s: State)
    requires Proven(s)
    ensures Honest(s, SendRtp(s.worker))
  {
    hide Confirmed, Reported, OnTerms;
    var w := s.worker;
    assert SendRtp(w) == w || SendRtp(w).wire.log == w.wire.log + [SendRtp(w).wire.log[|w.wire.log|]];
  }

  lemma AskingIsHonest(s: State, v: Worker)
    requires Proven(s) && AsksAtMost(s.worker, v)
    ensures Honest(s, v)
  {
    hide Confirmed, Reported, OnTerms;
  }

  lemma WorkerIsHonest(s: State, e: WorkerEvent)
    requires Safe(s) && Proven(s) && Session(s.worker) && WorkerEnabled(s, e)
    ensures Honest(s, ApplyWorker(s, e))
  {
    hide Safe, ClearRef, Session, Honest, Proven, LetsGo, EndPoll, StartOtherJob, CycleConnection, PollJobs, ClaimedJob,
      SendPayout, Resolve, SeeReceipt, SeeCooldown, BalanceTimer, IdleTimer, SeePayment, AsksAtMost, SeeBalance,
        ProbeTimer, RelogTimer, RelogWhenIdle,
      CheckManualPlay, EndConnection, OpenConnection, Spawn, SendRtp, TeleportSettled, Restarted, GapFits, Tick;
    var w := s.worker;
    match e {
      case Polls(alive) => PollIsHonest(s, alive);
      case ClaimReturns => ClaimReturnsIsHonest(s);
      case WaitEnds(throws) => SendPayoutIsHonest(s, throws);
      case WindowEnds(timer) => SilenceIsHonest(s, timer, NoAnswer);
      case RefusalSeen(refusal) =>
        if w.desk.pending.Some? {
          PendingIsDecided(s, e);
          if w.desk.phase.InFlight? {
            RefusedIsClear(s);
          }
          SilenceIsHonest(s, w.desk.pending.value.timer, RefusedFor(refusal));
        } else {
          NothingIsHonest(s);
        }
      case ReceiptSeen(seen) => ReceiptIsHonest(s, seen);
      case CooldownSeen => CooldownIsHonest(s);
      case BalanceDue =>
        TimersAsk(w, 0);
        AskingIsHonest(s, BalanceTimer(w));
      case IdleReadDue(gap) =>
        TimersAsk(w, gap);
        AskingIsHonest(s, IdleTimer(w, gap));
      case RtpDue => RtpIsHonest(s);
      case _ =>
        LettingGo(s, e);
        LettingGoIsHonest(s, ApplyWorker(s, e));
    }
  }

  lemma NothingIsHonest(s: State)
    requires Proven(s)
    ensures Honest(s, s.worker)
  {
    hide Confirmed, Reported, OnTerms;
  }

  lemma CooldownIsHonest(s: State)
    requires Proven(s)
    ensures Honest(s, SeeCooldown(s.worker))
  {
    hide Confirmed, Reported, OnTerms;
  }

  // The gateway and the server.

  ghost predicate TermsKept(g: Tables, h: Tables) {
    && (forall id | id in g.jobs ::
          id in h.jobs && h.jobs[id].payee == g.jobs[id].payee && h.jobs[id].amount == g.jobs[id].amount)
    && (forall event | event in g.claims :: event in h.claims && h.claims[event] == g.claims[event])
  }

  predicate OnReceipt(g: Tables, id: Id) {
    id in g.rows && g.rows[id].paidBy == Some(FromReceipt)
  }

  lemma RouteKeepsTerms(g: Tables, h: Tables, id: Id, payee: Name, amount: string, short: bool, now: int)
    requires id in h.rows && h.jobs == g.jobs && h.claims == g.claims
    ensures TermsKept(g, Route(h, id, payee, amount, short, now))
  {
  }

  lemma RequestsKeepTerms(g: Tables, id: Id, payee: Name, amount: string, approved: bool, short: bool, now: int)
    ensures TermsKept(g, RequestWithdrawal(g, id, payee, amount, approved, short, now))
    ensures TermsKept(g, ApproveWithdrawal(g, id, payee, amount, short, now))
  {
    var requested := g.(rows := g.rows[id := Row(InQueue, None, [], None)]);
    RouteKeepsTerms(g, requested, id, payee, amount, short, now);
    if id in g.rows {
      var approved := g.(rows := g.rows[id := g.rows[id].(status := InQueue, error := None)]);
      RouteKeepsTerms(g, approved, id, payee, amount, short, now);
    }
    hide Route;
  }

  lemma HoldsKeepTerms(g: Tables, id: Id)
    ensures TermsKept(g, HoldWithdrawal(g, id)) && TermsKept(g, RejectWithdrawal(g, id))
  {
  }

  lemma ReleasesKeepTerms(g: Tables, id: Id, payee: Name, amount: string, flag: bool, at: int, code: Code)
    ensures TermsKept(g, LandRelease(g, id, payee, amount, flag, at)) && TermsKept(g, GiveUpRelease(g, id, code, flag))
    ensures TermsKept(g, RetryRelease(g, id))
  {
  }

  lemma PeopleKeepTerms(g: Tables, id: Id, paid: bool, verdict: Verdict)
    ensures TermsKept(g, ResolveReview(g, id, paid)) && TermsKept(g, Gateway.SettleFromBalance(g, id, verdict))
    ensures TermsKept(g, QuarantineBot(g))
  {
    hide CloseReview, TermsKept, QuarantineBot;
    NothingKeepsTerms(g);
    if id in g.rows {
      ClosingKeepsTerms(g, id, g.rows[id].(status := Paid, error := None, paidBy := Some(FromOperator)));
      ClosingKeepsTerms(g, id, g.rows[id].(status := Paid, error := None, paidBy := Some(FromBalance)));
      ClosingKeepsTerms(g, id, Refund(g.rows[id], ConfirmedNotPaid));
      ClosingKeepsTerms(g, id, Refund(g.rows[id], BalanceShowsNotPaid));
    }
  }

  lemma NothingKeepsTerms(g: Tables)
    ensures TermsKept(g, g) && TermsKept(g, QuarantineBot(g))
  {
  }

  lemma ClosingKeepsTerms(g: Tables, id: Id, row: Row)
    ensures TermsKept(g, CloseReview(g, id, row))
  {
  }

  lemma SweepsKeepTerms(g: Tables, now: int)
    ensures TermsKept(g, ExpireLeases(g, now)) && TermsKept(g, WakeFundsQueue(g, now))
  {
  }

  lemma ClaimsKeepTerms(g: Tables, event: EventId, choice: Given, now: int)
    ensures TermsKept(g, ClaimJob(g, event, choice, now))
  {
    SweepsKeepTerms(g, now);
    hide ExpireLeases, Claimable;
  }

  lemma ResultsKeepTerms(g: Tables, r: Result, now: int)
    ensures TermsKept(g, HandleResult(g, r, now))
  {
  }

  /** Of all transactions only a result can mark a withdrawal paid on a receipt. */
  lemma ReceiptsComeFromResults(s: State, e: GatewayEvent, now: int, id: Id)
    requires Safe(s) && GatewayEnabled(s, e) && OnReceipt(ApplyGateway(s, e, now), id)
    ensures OnReceipt(s.tables, id)
            || (e.ResultArrives? && e.result.job == Withdrawal(id) && e.result.outcome == Completed)
  {
    hide Safe, VerdictFor, AllDecided, Imitates;
    match e {
      case ResultArrives(r) =>
      case ClaimArrives(event, choice) => ClaimsMarkNothing(s.tables, event, choice, now, id);
      case _ =>
    }
  }

  lemma ClaimsMarkNothing(g: Tables, event: EventId, choice: Given, now: int, id: Id)
    requires OnReceipt(ClaimJob(g, event, choice, now), id)
    ensures OnReceipt(g, id)
  {
  }

  lemma GatewayKeepsTerms(s: State, e: GatewayEvent, now: int)
    requires GatewayEnabled(s, e)
    ensures TermsKept(s.tables, ApplyGateway(s, e, now))
  {
    hide TermsKept, RequestWithdrawal, LandRelease, GiveUpRelease, RetryRelease, HoldWithdrawal, ApproveWithdrawal,
      RejectWithdrawal, ClaimJob, HandleResult,
      ExpireLeases, WakeFundsQueue, QuarantineBot, ResolveReview, SettleFromBalance, VerdictFor, AllDecided, Imitates;
    var g := s.tables;
    match e {
      case Requested(id, payee, amount, approved, short) => RequestsKeepTerms(g, id, payee, amount, approved, short, now);
      case HeldBack(id) => HoldsKeepTerms(g, id);
      case Approved(id, payee, amount, short) => RequestsKeepTerms(g, id, payee, amount, false, short, now);
      case RejectedByOperator(id) => HoldsKeepTerms(g, id);
      case ReleaseLanded(id, payee, amount, byReceipt, at) =>
        ReleasesKeepTerms(g, id, payee, amount, byReceipt, at, NotSent);
      case ReleaseGivenUp(id, code, shown) => ReleasesKeepTerms(g, id, "", "", shown, 0, code);
      case ReleaseRetried(id) => ReleasesKeepTerms(g, id, "", "", false, 0, NotSent);
      case ClaimArrives(event, choice) => ClaimsKeepTerms(g, event, choice, now);
      case ResultArrives(result) => ResultsKeepTerms(g, result, now);
      case MaintenanceRuns => SweepsKeepTerms(g, now);
      case FundsArrive => SweepsKeepTerms(g, now);
      case BotQuarantined => PeopleKeepTerms(g, 0, false, Unclear);
      case ReviewResolved(id, paid) => PeopleKeepTerms(g, id, paid, Unclear);
      case BalanceJudged(id, tracked, drift) => PeopleKeepTerms(g, id, false, VerdictFor(s, id, tracked, drift));
    }
  }

  lemma TablesGrow(s: State, g: Tables)
    requires TermsKept(s.tables, g)
    ensures Grows(s, With(s, g))
  {
  }

  lemma GatewayKeepsProven(s: State, e: GatewayEvent, now: int)
    requires Proven(s) && Safe(s) && GatewayEnabled(s, e)
    ensures Proven(With(s, ApplyGateway(s, e, now)))
  {
    var t := With(s, ApplyGateway(s, e, now));
    GatewayKeepsTerms(s, e, now);
    TablesGrow(s, t.tables);
    hide Safe, ApplyGateway, Confirmed, TermsKept, AllDecided, Imitates;
    forall id | id in t.tables.rows && t.tables.rows[id].paidBy == Some(FromReceipt)
      ensures OnReceipt(s.tables, id) || Reported(t, id)
    {
      ReceiptsComeFromResults(s, e, now, id);
    }
    ProvenGrows(s, t);
  }

  lemma ServerKeepsProven(s: State, sent: nat, fate: Fate)
    requires Proven(s) && sent < |s.fates| && s.fates[sent].Undecided?
    ensures Proven(s.(fates := s.fates[sent := fate]))
  {
    var t := s.(fates := s.fates[sent := fate]);
    assert Grows(s, t);
    hide Confirmed, Grows;
    forall id | id in t.tables.rows && t.tables.rows[id].paidBy == Some(FromReceipt)
      ensures Reported(t, id)
    {
      assert Reported(s, id);
    }
    ProvenGrows(s, t);
  }
}
