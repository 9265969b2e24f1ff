/**
 * Reports that leave it open whether money moved, or say that it did: nothing is sent again or given back
 * on them, from the moment they are made, however long they are on their way.
 */
module PayoutDoubt {
  import opened BalanceEvidence
  import opened Gateway
  import opened Options
  import opened PayoutEndings
  import opened PayoutGatewaySteps
  import opened PayoutInvariant
  import opened PayoutSafety
  import opened PayoutSystem
  import opened PayoutWorkerSteps
  import opened WorkerModel

  // One report for each claim.

  /** A report was made under this token. */
  predicate Spent(w: Worker, token: EventId) {
    exists k :: 0 <= k < |w.wire.posted| && w.wire.posted[k].token == token
  }

  predicate OnceEach(posted: seq<Result>) {
    forall j, k | 0 <= j < k < |posted| :: posted[j].token != posted[k].token
  }

  /** Every claim is reported on at most once, and the one the worker is on not yet. */
  ghost predicate Tokens(s: State) {
    var w := s.worker;
    && OnceEach(w.wire.posted)
    && (w.desk.phase.Claiming? ==> !Spent(w, w.desk.phase.event))
    && (w.desk.phase.Gap? || w.desk.phase.InFlight? ==> !Spent(w, w.desk.phase.job.token))
  }

  predicate OnAJob(w: Worker) {
    w.desk.phase.Gap? || w.desk.phase.InFlight?
  }

  /** What a stretch of the worker's code does to the claim it is on. */
  ghost predicate GoesOn(w: Worker, v: Worker) {
    || (v.wire.posted == w.wire.posted && (v.desk.phase == w.desk.phase || v.desk.phase.Idle? || v.desk.phase.OtherJob?))
    || (v.wire.posted == w.wire.posted && v.desk.phase.Claiming? && v.desk.phase.event == w.wire.nextId)
    || (v.wire.posted == w.wire.posted && w.desk.phase.Claiming? && v.desk.phase.Gap?
       && v.desk.phase.job.token == w.desk.phase.event)
    || (v.wire.posted == w.wire.posted && w.desk.phase.Gap? && v.desk.phase.InFlight?
       && v.desk.phase.job == w.desk.phase.job)
    || Reported(w, v)
  }

  /** The one report on the job the worker is on. */
  ghost predicate Reported(w: Worker, v: Worker) {
    && OnAJob(w) && v.desk.phase.Reporting?
    && exists r: Result ::
         && v.wire.posted == w.wire.posted + [r] && r.job == w.desk.phase.job.ref
         && r.token == w.desk.phase.job.token
  }

  lemma LettingGoGoesOn(w: Worker, v: Worker)
    requires LetsGo(w, v)
    ensures GoesOn(w, v)
  {
  }

  lemma AskingGoesOn(w: Worker, v: Worker)
    requires AsksAtMost(w, v)
    ensures GoesOn(w, v)
  {
  }

  lemma ClaimReturnsGoesOn(s: State)
    requires s.worker.desk.phase.Claiming? && s.worker.desk.phase.event in s.tables.claims
    ensures GoesOn(s.worker, ClaimedJob(s, s.worker))
  {
    SoonLetsGo(s.worker, BALANCE_AFTER_MOVE_MS + PAYOUT_CONFIRM_MS);
    hide BalanceSoon, ClearAt, LetsGo;
  }

  lemma ReportReports(w: Worker, u: Worker, outcome: Outcome, reconnect: bool)
    requires OnAJob(w) && u.wire.posted == w.wire.posted
    ensures Reported(w, Report(u, w.desk.phase.job, outcome, reconnect))
  {
    var v := Report(u, w.desk.phase.job, outcome, reconnect);
    assert v.wire.posted == w.wire.posted + [Result(u.wire.nextId, w.desk.phase.job.ref, w.desk.phase.job.token,
           outcome)];
  }

  lemma SendPayoutGoesOn(w: Worker, throws: bool)
    requires w.desk.phase.Gap?
    ensures GoesOn(w, SendPayout(w, throws))
  {
    var job, live := w.desk.phase.job, ConnectionLive(w, w.desk.phase.conn);
    var held := w.(desk := w.desk.(payoutPreparing := false),
        watch := w.watch.(awaitingAnswer := w.watch.awaitingAnswer || live));
    ReportReports(w, held, Failed(live, NotSent), false);
    assert HoldBack(w, live) == Report(held, job, Failed(live, NotSent), false);
    if live {
      var u := WritePayout(w);
      assert u.wire.posted == w.wire.posted && u.desk.phase.InFlight? && u.desk.phase.job == job;
      ReportReports(w, u, Failed(false, PayoutFailed), false);
    }
    hide Reported, Report, WritePayout, HoldBack, AnswerDue, ConnectionLive;
  }

  lemma ResolveGoesOn(w: Worker, timer: TimerId, answer: Answer)
    ensures GoesOn(w, Resolve(Disarmed(w, timer), timer, answer))
  {
    var u := Disarmed(w, timer);
    assert u.wire.posted == w.wire.posted && u.desk.phase == w.desk.phase;
    if w.desk.phase.InFlight? {
      var v := u.(desk := u.desk.(payoutCooldownSeen := u.desk.payoutCooldownSeen && answer != NoAnswer));
      assert v.wire.posted == w.wire.posted;
      ReportReports(w, v, Conclusion(w.desk.phase.job, answer, u.desk.payoutCooldownSeen),
                    answer == NoAnswer && !u.desk.payoutCooldownSeen);
    }
    hide Reported, Report, Conclusion, Disarmed;
  }

  lemma WorkerGoesOn(s: State, e: WorkerEvent)
    requires WorkerEnabled(s, e)
    ensures GoesOn(s.worker, ApplyWorker(s, e))
  {
    LettingGoGoesOn(s.worker, s.worker);
    hide GoesOn, LetsGo, AsksAtMost, EndPoll, CycleConnection, ClaimedJob, SendPayout, Resolve, Disarmed, BalanceTimer,
      IdleTimer, SeePayment, SeeBalance, ProbeTimer, RelogTimer, RelogWhenIdle, CheckManualPlay, EndConnection,
      OpenConnection, Spawn, SendRtp, TeleportSettled, Restarted, GapFits, Tick, PollJobs, SeeCooldown;
    var w := s.worker;
    match e {
      case Polls(alive) => PollGoesOn(w, alive);
      case ClaimReturns => ClaimReturnsGoesOn(s);
      case WaitEnds(throws) => SendPayoutGoesOn(w, throws);
      case WindowEnds(timer) => ResolveGoesOn(w, timer, NoAnswer);
      case RefusalSeen(refusal) =>
        if w.desk.pending.Some? {
          ResolveGoesOn(w, w.desk.pending.value.timer, RefusedFor(refusal));
        }
      case ReceiptSeen(seen) =>
        if w.desk.pending.Some? {
          ResolveGoesOn(w, w.desk.pending.value.timer, Receipt(s.fates[seen].displayed));
        }
      case CooldownSeen => SmallStepsGoOn(w);
      case BalanceDue =>
        TimersAsk(w, 0);
        AskingGoesOn(w, BalanceTimer(w));
      case IdleReadDue(gap) =>
        TimersAsk(w, gap);
        AskingGoesOn(w, IdleTimer(w, gap));
      case RtpDue => SmallStepsGoOn(w);
      case _ =>
        LettingGo(s, e);
        LettingGoGoesOn(w, ApplyWorker(s, e));
    }
  }

  lemma PollGoesOn(w: Worker, alive: bool)
    ensures GoesOn(w, PollJobs(w, alive))
  {
    hide MayClaim;
  }

  lemma SmallStepsGoOn(w: Worker)
    ensures GoesOn(w, SeeCooldown(w)) && GoesOn(w, SendRtp(w))
  {
  }

  lemma WorkerKeepsTokens(s: State, v: Worker)
    requires Shape(s) && Tokens(s) && GoesOn(s.worker, v)
    ensures Tokens(After(s, v))
  {
    var w := s.worker;
    assert !Spent(w, w.wire.nextId);
    if v.wire.posted != w.wire.posted {
      var r: Result :| v.wire.posted == w.wire.posted + [r] && r.job == w.desk.phase.job.ref
          && r.token == w.desk.phase.job.token;
      forall k | 0 <= k < |w.wire.posted|
        ensures w.wire.posted[k].token != r.token
      {
      }
    }
  }

  // A report that does not say "not moved".

  ghost predicate Doubts(s: State, k: int, id: Id) {
    0 <= k < |s.worker.wire.posted| && s.worker.wire.posted[k].job == Withdrawal(id)
      && !SaysNotMoved(s.worker.wire.posted[k].outcome)
  }

  /** Its job is dead, or leased under that report's own token; nobody works on it, and its row is past holding. */
  ghost predicate DoubtOk(s: State, k: int, id: Id)
    requires 0 <= k < |s.worker.wire.posted|
  {
    && id in s.tables.jobs && id in s.tables.rows && !Live(s, id)
    && (Dead(s.tables.jobs[id]) || LeasedBy(s.tables.jobs[id], s.worker.wire.posted[k].token))
    && s.tables.rows[id].status !in {PendingApproval, AwaitingVault} && !Waits(s.tables, id)
  }

  predicate LeasedBy(job: Job, token: EventId) {
    job.status == Leased && job.token == Some(token)
  }

  ghost predicate Settling(s: State) {
    Tokens(s) && forall k, id | 0 <= k < |s.worker.wire.posted| && Doubts(s, k, id) :: DoubtOk(s, k, id)
  }

  /** What a transaction may still do to a withdrawal reported in doubt. */
  ghost predicate Decides(g: Tables, h: Tables, id: Id, token: EventId)
    requires id in g.jobs && id in g.rows
  {
    && id in h.jobs && id in h.rows
    && (Dead(h.jobs[id]) || (h.jobs[id] == g.jobs[id] && LeasedBy(g.jobs[id], token)))
    && h.rows[id].status !in {PendingApproval, AwaitingVault} && !Waits(h, id)
    && (h.rows[id].Open() ==> h.rows[id] == g.rows[id])
    && forall code | code in h.rows[id].refunds && code !in g.rows[id].refunds ::
       code in {BalanceShowsNotPaid, ConfirmedNotPaid}
  }

  predicate InDoubt(g: Tables, id: Id, token: EventId) {
    && id in g.jobs && id in g.rows && (Dead(g.jobs[id]) || LeasedBy(g.jobs[id], token))
    && g.rows[id].status !in {PendingApproval, AwaitingVault} && !Waits(g, id)
  }

  lemma PeopleDecide(
      g: Tables, other: Id, payee: Name, amount: string, approved: bool, short: bool, now: int, id: Id, token: EventId)
    requires InDoubt(g, id, token)
    ensures Decides(g, RequestWithdrawal(g, other, payee, amount, approved, short, now), id, token)
    ensures Decides(g, ApproveWithdrawal(g, other, payee, amount, short, now), id, token)
  {
  }

  lemma HoldsDecide(g: Tables, other: Id, id: Id, token: EventId)
    requires InDoubt(g, id, token)
    ensures Decides(g, HoldWithdrawal(g, other), id, token) && Decides(g, RejectWithdrawal(g, other), id, token)
  {
  }

  lemma ReleasesDecide(
      g: Tables, other: Id, payee: Name, amount: string, flag: bool, at: int, code: Code, id: Id, token: EventId)
    requires InDoubt(g, id, token)
    ensures Decides(g, LandRelease(g, other, payee, amount, flag, at), id, token)
    ensures Decides(g, GiveUpRelease(g, other, code, flag), id, token) && Decides(g, RetryRelease(g, other), id, token)
  {
  }

  lemma ReviewsDecide(g: Tables, other: Id, flag: bool, id: Id, token: EventId)
    requires InDoubt(g, id, token)
    ensures Decides(g, ResolveReview(g, other, flag), id, token)
  {
  }

  lemma VerdictsDecide(g: Tables, other: Id, verdict: Verdict, id: Id, token: EventId)
    requires InDoubt(g, id, token)
    ensures Decides(g, Gateway.SettleFromBalance(g, other, verdict), id, token)
  {
  }

  lemma QuarantineDecides(g: Tables, id: Id, token: EventId)
    requires InDoubt(g, id, token)
    ensures Decides(g, QuarantineBot(g), id, token)
  {
  }

  lemma SweepsDecide(g: Tables, now: int, id: Id, token: EventId)
    requires InDoubt(g, id, token)
    ensures Decides(g, ExpireLeases(g, now), id, token) && Decides(g, WakeFundsQueue(g, now), id, token)
  {
  }

  lemma ClaimsDecide(g: Tables, event: EventId, choice: Given, now: int, id: Id, token: EventId)
    requires InDoubt(g, id, token)
    ensures Decides(g, ClaimJob(g, event, choice, now), id, token)
  {
    SweepsDecide(g, now, id, token);
    hide ExpireLeases;
  }

  /** Under its own token only this very report can arrive; any other finds the lease invalid. */
  lemma ResultsDecide(s: State, k: nat, r: Result, now: int, id: Id)
    requires OnceEach(s.worker.wire.posted) && Doubts(s, k, id) && r in s.worker.wire.posted
    requires InDoubt(s.tables, id, s.worker.wire.posted[k].token)
    ensures Decides(s.tables, HandleResult(s.tables, r, now), id, s.worker.wire.posted[k].token)
  {
    var g := s.tables;
    assert r.token == s.worker.wire.posted[k].token ==> r == s.worker.wire.posted[k];
    if r.event !in g.journal && r.job == Withdrawal(id) {
      SettlesDoubt(g.jobs[id], g.rows[id], r, now, s.worker.wire.posted[k]);
    }
    hide SettleResult;
  }

  lemma SettlesDoubt(job: Job, row: Row, r: Result, now: int, own: Result)
    requires !SaysNotMoved(own.outcome) && (r.token == own.token ==> r == own)
    requires Dead(job) || LeasedBy(job, own.token)
    requires row.status !in {PendingApproval, AwaitingVault}
    ensures var (after, settled) := SettleResult(job, row, r, now);
            && Dead(after) && settled.refunds == row.refunds && settled.status !in {PendingApproval, AwaitingVault}
            && (settled.Open() ==> settled == row)
            && (r.outcome.Failed? && row.Open() && job.status != Done ==> settled.status == ManualReview)
  {
  }

  lemma ReportedInDoubt(s: State, k: int, id: Id)
    requires Settling(s) && Doubts(s, k, id)
    ensures 0 <= k < |s.worker.wire.posted| && DoubtOk(s, k, id)
    ensures InDoubt(s.tables, id, s.worker.wire.posted[k].token) && OnceEach(s.worker.wire.posted)
  {
    hide Live, Waits, Dead;
  }

  lemma GatewayDecides(s: State, e: GatewayEvent, now: int, k: nat, id: Id)
    requires GatewayEnabled(s, e) && Settling(s) && Doubts(s, k, id)
    ensures DoubtOk(s, k, id) && Decides(s.tables, ApplyGateway(s, e, now), id, s.worker.wire.posted[k].token)
  {
    hide Decides, InDoubt, RequestWithdrawal, LandRelease, GiveUpRelease, RetryRelease, HoldWithdrawal, ApproveWithdrawal,
      RejectWithdrawal, ClaimJob, HandleResult, ExpireLeases, WakeFundsQueue, QuarantineBot, ResolveReview,
      SettleFromBalance, VerdictFor, AllDecided, Imitates, DoubtOk, Doubts;
    ReportedInDoubt(s, k, id);
    var g, token := s.tables, s.worker.wire.posted[k].token;
    match e {
      case Requested(other, payee, amount, approved, short) =>
        PeopleDecide(g, other, payee, amount, approved, short, now, id, token);
      case HeldBack(other) => HoldsDecide(g, other, id, token);
      case Approved(other, payee, amount, short) => PeopleDecide(g, other, payee, amount, false, short, now, id, token);
      case RejectedByOperator(other) => HoldsDecide(g, other, id, token);
      case ReleaseLanded(other, payee, amount, byReceipt, at) =>
        ReleasesDecide(g, other, payee, amount, byReceipt, at, NotSent, id, token);
      case ReleaseGivenUp(other, code, shown) => ReleasesDecide(g, other, "", "", shown, 0, code, id, token);
      case ReleaseRetried(other) => ReleasesDecide(g, other, "", "", false, 0, NotSent, id, token);
      case ClaimArrives(event, choice) => ClaimsDecide(g, event, choice, now, id, token);
      case ResultArrives(result) => ResultsDecide(s, k, result, now, id);
      case MaintenanceRuns => SweepsDecide(g, now, id, token);
      case FundsArrive => SweepsDecide(g, now, id, token);
      case BotQuarantined => QuarantineDecides(g, id, token);
      case ReviewResolved(other, paid) => ReviewsDecide(g, other, paid, id, token);
      case BalanceJudged(other, tracked, drift) =>
        VerdictsDecide(g, other, VerdictFor(s, other, tracked, drift), id, token);
    }
  }

  /** No transaction gives the worker a lease of a withdrawal reported in doubt. */
  lemma GatewayRevivesNoDoubt(s: State, e: GatewayEvent, now: int, id: Id)
    requires Shape(s) && GatewayEnabled(s, e) && !Live(s, id)
    requires id in s.tables.jobs && s.tables.jobs[id].status != Queued
    ensures !Live(With(s, ApplyGateway(s, e, now)), id)
  {
    hide RequestWithdrawal, HoldWithdrawal, ApproveWithdrawal, LandRelease, GiveUpRelease, RetryRelease, RejectWithdrawal,
      HandleResult, ExpireLeases, WakeFundsQueue, QuarantineBot, ResolveReview, SettleFromBalance, VerdictFor, AllDecided,
      Imitates, ClaimJob, Shape;
    match e {
      case ClaimArrives(event, choice) => ClaimsOnlyQueued(s, event, choice, now, id);
      case _ => ClaimsStay(s, e, now);
    }
  }

  lemma ClaimsOnlyQueued(s: State, event: EventId, choice: Given, now: int, id: Id)
    requires Shape(s) && !Live(s, id) && id in s.tables.jobs && s.tables.jobs[id].status != Queued
    ensures !Live(With(s, ClaimJob(s.tables, event, choice, now)), id)
  {
  }

  lemma GatewayKeepsSettling(s: State, e: GatewayEvent, now: int)
    requires Shape(s) && GatewayEnabled(s, e) && Settling(s)
    ensures Settling(With(s, ApplyGateway(s, e, now)))
  {
    var t := With(s, ApplyGateway(s, e, now));
    assert Tokens(t);
    forall k, id | 0 <= k < |t.worker.wire.posted| && Doubts(t, k, id)
      ensures DoubtOk(t, k, id)
    {
      assert Doubts(s, k, id);
      GatewayDecides(s, e, now, k, id);
      GatewayRevivesNoDoubt(s, e, now, id);
    }
    hide Shape, Tokens, GatewayEnabled, ApplyGateway, Waits, LiveLease;
  }

  /** Before its report the job was the worker's own: leased under this token, or dead by now. */
  lemma HeldUntilReported(s: State, id: Id)
    requires Safe(s) && OnAJob(s.worker) && s.worker.desk.phase.job.ref == Withdrawal(id)
    ensures InDoubt(s.tables, id, s.worker.desk.phase.job.token)
  {
    assert Live(s, id) && id in s.tables.jobs && id in s.tables.rows by { hide Leases, Rows, Once; }
    assert JobOk(s, id, s.tables.jobs[id]) by { hide Shape, Rows, Once, JobOk; }
    assert RowOk(s, id, s.tables.rows[id], JobAt(s.tables, id), Waits(s.tables, id)) by { hide Shape, Leases, Once,
           RowOk; }
    hide Safe, Clear;
  }

  lemma WorkerKeepsSettling(s: State, e: WorkerEvent)
    requires Safe(s) && Settling(s) && WorkerEnabled(s, e)
    ensures Settling(After(s, ApplyWorker(s, e)))
  {
    var w, v := s.worker, ApplyWorker(s, e);
    var t := After(s, v);
    WorkerGoesOn(s, e);
    WorkerKeepsTokens(s, v);
    forall k, id | 0 <= k < |v.wire.posted| && Doubts(t, k, id)
      ensures DoubtOk(t, k, id)
    {
      if k < |w.wire.posted| {
        OldDoubtCarries(s, e, k, id);
      } else {
        NewDoubtIsOk(s, v, k, id);
      }
    }
    hide Safe, Tokens, GoesOn, WorkerEnabled, ApplyWorker, DoubtOk;
  }

  lemma PostedStays(w: Worker, v: Worker, k: nat)
    requires GoesOn(w, v) && k < |w.wire.posted|
    ensures k < |v.wire.posted| && v.wire.posted[k] == w.wire.posted[k]
  {
  }

  lemma NewIsReported(w: Worker, v: Worker, k: nat)
    requires GoesOn(w, v) && |w.wire.posted| <= k < |v.wire.posted|
    ensures Reported(w, v) && v.wire.posted[k].job == w.desk.phase.job.ref
            && v.wire.posted[k].token == w.desk.phase.job.token
  {
  }

  lemma OldDoubtCarries(s: State, e: WorkerEvent, k: nat, id: Id)
    requires Safe(s) && Settling(s) && WorkerEnabled(s, e) && GoesOn(s.worker, ApplyWorker(s, e))
    requires k < |s.worker.wire.posted| && Doubts(After(s, ApplyWorker(s, e)), k, id)
    ensures DoubtOk(After(s, ApplyWorker(s, e)), k, id)
  {
    hide ApplyWorker, WorkerEnabled, Tokens, Leases, Rows, Once, GoesOn;
    PostedStays(s.worker, ApplyWorker(s, e), k);
    assert Doubts(s, k, id) && DoubtOk(s, k, id);
    hide Live, Waits;
    WorkerOnlyHeld(s, e, id);
  }

  lemma NewDoubtIsOk(s: State, v: Worker, k: nat, id: Id)
    requires Safe(s) && GoesOn(s.worker, v) && |s.worker.wire.posted| <= k && Doubts(After(s, v), k, id)
    ensures DoubtOk(After(s, v), k, id)
  {
    hide Safe, GoesOn, Waits;
    NewIsReported(s.worker, v, k);
    HeldUntilReported(s, id);
  }

  // Over every run.

  lemma StepKeepsSettling(s: State, e: Event)
    requires Safe(s) && Settling(s) && Enabled(s, e)
    ensures Settling(Apply(s, e))
  {
    hide Tokens, ApplyGateway, ApplyWorker, GatewayEnabled, WorkerEnabled, DoubtOk;
    match e {
      case AtGateway(event, now) => GatewayKeepsSettling(s, event, now);
      case AtWorker(did) => WorkerKeepsSettling(s, did);
      case AtServer(sent, fate) => ServerKeepsSettling(s, sent, fate);
    }
  }

  lemma ServerKeepsSettling(s: State, sent: nat, fate: Fate)
    requires Settling(s) && sent < |s.fates|
    ensures Settling(s.(fates := s.fates[sent := fate]))
  {
    var t := s.(fates := s.fates[sent := fate]);
    forall k, id | 0 <= k < |t.worker.wire.posted| && Doubts(t, k, id)
      ensures DoubtOk(t, k, id)
    {
      assert Doubts(s, k, id) && DoubtOk(s, k, id);
    }
  }

  lemma {:induction false} EveryStateSettles(run: seq<State>, events: seq<Event>, n: nat)
    requires IsRun(run, events) && n < |run|
    ensures Settling(run[n])
  {
    hide Sound, Safe, Enabled, Apply, Settling;
    if n == 0 {
      var now :| now >= 0 && run[0] == Initial(now);
      StartsSettling(now);
    } else {
      EveryStateSettles(run, events, n - 1);
      EveryStateIsSafe(run, events, n - 1);
      StepKeepsSettling(run[n - 1], events[n - 1]);
    }
  }

  lemma StartsSettling(now: int)
    ensures Settling(Initial(now))
  {
  }

  /** Between two states of a run: nothing more was sent, nothing given back but on evidence or by an operator. */
  ghost predicate LeftAlone(s: State, t: State, id: Id) {
    && id in s.tables.rows && id in t.tables.rows
    && (forall i | IsPayFor(t, i, id) :: IsPayFor(s, i, id))
    && (forall code | code in t.tables.rows[id].refunds && code !in s.tables.rows[id].refunds ::
          code in {BalanceShowsNotPaid, ConfirmedNotPaid})
    && (t.tables.rows[id].Open() ==> t.tables.rows[id] == s.tables.rows[id])
  }

  lemma LeftAloneAdds(s: State, t: State, u: State, id: Id)
    requires LeftAlone(s, t, id) && LeftAlone(t, u, id)
    ensures LeftAlone(s, u, id)
  {
  }

  lemma StepLeavesAlone(s: State, e: Event, k: nat, id: Id)
    requires Shape(s) && Settling(s) && Doubts(s, k, id) && Enabled(s, e)
    ensures LeftAlone(s, Apply(s, e), id) && Doubts(Apply(s, e), k, id)
  {
    assert DoubtOk(s, k, id);
    hide Shape, Tokens, ApplyGateway, ApplyWorker, GatewayEnabled, WorkerEnabled, Live, Waits, GoesOn;
    match e {
      case AtGateway(event, now) => GatewayDecides(s, event, now, k, id);
      case AtWorker(did) =>
        WorkerOnlyHeld(s, did, id);
        WorkerGoesOn(s, did);
        PostedStays(s.worker, ApplyWorker(s, did), k);
      case AtServer(sent, fate) =>
    }
  }

  /**
   * From the moment a payout is reported as confirmed, unconfirmed, short, or thrown, over every run: no
   * further /pay is written for it, money is given back only on the bot's balance or by an operator, and a
   * withdrawal that has left the queue never comes back into it.
   */
  lemma {:induction false} DoubtIsNeverActedOn(
      run: seq<State>, events: seq<Event>, n: nat, m: nat, k: nat, id: Id)
    requires IsRun(run, events) && n <= m < |run| && Doubts(run[n], k, id)
    ensures LeftAlone(run[n], run[m], id) && Doubts(run[m], k, id)
  {
    hide IsRun, Settling, Safe, LeftAlone, Doubts, Enabled, Apply;
    RunLength(run, events);
    EveryStateSettles(run, events, n);
    if n == m {
      DoubtIsKnown(run[n], k, id);
    } else {
      DoubtIsNeverActedOn(run, events, n, m - 1, k, id);
      EveryStateSettles(run, events, m - 1);
      EveryStateIsSafe(run, events, m - 1);
      SafeIsShaped(run[m - 1]);
      RunSteps(run, events, m - 1);
      StepLeavesAlone(run[m - 1], events[m - 1], k, id);
      LeftAloneAdds(run[n], run[m - 1], run[m], id);
    }
  }

  lemma DoubtIsKnown(s: State, k: nat, id: Id)
    requires Settling(s) && Doubts(s, k, id)
    ensures LeftAlone(s, s, id)
  {
    assert DoubtOk(s, k, id);
  }

  lemma SafeIsShaped(s: State)
    requires Safe(s)
    ensures Shape(s)
  {
    hide Shape, Leases, Rows, Once;
  }

  lemma RunSteps(run: seq<State>, events: seq<Event>, n: nat)
    requires IsRun(run, events) && n < |events|
    ensures Enabled(run[n], events[n]) && run[n + 1] == Apply(run[n], events[n])
  {
    hide Enabled, Apply;
  }

  /**
   * However late such a failure arrives, it ends the job, and puts a withdrawal that is still in the queue
   * before an operator. (A job already completed stays as it is.)
   */
  lemma DoubtGoesToReview(run: seq<State>, events: seq<Event>, n: nat, k: nat, id: Id, now: int)
    requires IsRun(run, events) && n < |events| && Doubts(run[n], k, id) && run[n].worker.wire.posted[k].outcome.Failed?
    requires events[n] == AtGateway(ResultArrives(run[n].worker.wire.posted[k]), now)
    requires run[n].worker.wire.posted[k].event !in run[n].tables.journal
    ensures id in run[n].tables.jobs && id in run[n].tables.rows
    ensures id in run[n + 1].tables.jobs && Dead(run[n + 1].tables.jobs[id]) && id in run[n + 1].tables.rows
    ensures run[n].tables.jobs[id].status != Done && run[n].tables.rows[id].Open() ==>
              run[n + 1].tables.rows[id].status == ManualReview
  {
    var s, r := run[n], run[n].worker.wire.posted[k];
    EveryStateSettles(run, events, n);
    assert DoubtOk(s, k, id);
    assert run[n + 1].tables == HandleResult(s.tables, r, now) by { hide Settling, DoubtOk, HandleResult; }
    SettlesDoubt(s.tables.jobs[id], s.tables.rows[id], r, now, r);
    hide IsRun, Settling, SettleResult;
  }
}
