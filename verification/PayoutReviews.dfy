/**
 * What an operator decides while the worker may still be at work: when a refund in review is safe, and what
 * quarantining the bot leaves behind.
 */
module PayoutReviews {
  import opened BalanceEvidence
  import opened Gateway
  import opened Options
  import opened PayoutDoubt
  import opened PayoutEndings
  import opened PayoutGatewaySteps
  import opened PayoutInvariant
  import opened PayoutSafety
  import opened PayoutSystem
  import opened PayoutWaits
  import opened PayoutWorkerSteps
  import opened WorkerModel

  // Refunds in review.

  /** Whatever happens from here, no money moves for this withdrawal. */
  ghost predicate NeverMoves(s: State, id: Id) {
    forall t | Leads(s, t) :: !HasMoved(t, id)
  }

  /** What the server has decided stays decided. */
  lemma {:induction false} FatesStay(path: seq<State>, events: seq<Event>, m: nat, i: nat)
    requires IsPath(path, events) && m < |path| && i < |path[0].fates| && !path[0].fates[i].Undecided?
    ensures i < |path[m].fates| && path[m].fates[i] == path[0].fates[i]
  {
    hide ApplyGateway, ApplyWorker, GatewayEnabled, WorkerEnabled;
    if m > 0 {
      FatesStay(path, events, m - 1, i);
    }
  }

  lemma FatesLast(s: State, t: State, i: nat)
    requires Leads(s, t) && i < |s.fates| && !s.fates[i].Undecided?
    ensures i < |t.fates| && t.fates[i] == s.fates[i]
  {
    hide Enabled, Apply;
    var path, events :| IsPath(path, events) && path[0] == s && path[|events|] == t;
    FatesStay(path, events, |events|, i);
  }

  lemma ClearForGood(s: State, t: State, id: Id)
    requires Sound(s) && Finished(s, id) && Clear(s, id) && Leads(s, t)
    ensures !HasMoved(t, id)
  {
    hide Sound, Finished, Leads, Shape;
    SoundIsSafe(s);
    CommandsHaveFates(s);
    hide Safe;
    FinishedWritesNothing(s, t, id);
    if HasMoved(t, id) {
      var i :| IsPayFor(t, i, id) && i < |t.fates| && t.fates[i].Moved?;
      assert IsPayFor(s, i, id) && s.fates[i].NotMoved?;
      FatesLast(s, t, i);
    }
  }

  /** A command that moved money has moved it, and one still undecided may. */
  lemma UnclearMayMove(s: State, t: State, id: Id)
    requires Leads(s, t) && !Clear(t, id)
    ensures !NeverMoves(s, id)
  {
    hide Leads;
    var i :| IsPayFor(t, i, id) && i < |t.fates| && !t.fates[i].NotMoved?;
    if t.fates[i].Moved? {
      assert HasMoved(t, id);
    } else {
      var u := t.(fates := t.fates[i := Moved("")]);
      assert Enabled(t, AtServer(i, Moved(""))) && Apply(t, AtServer(i, Moved(""))) == u;
      assert IsPayFor(u, i, id) && HasMoved(u, id);
      LeadsFurther(s, t, AtServer(i, Moved("")));
    }
  }

  lemma WrittenIsUnclear(t: State, n: nat, id: Id)
    requires WrittenSince(t, n, id)
    ensures !Clear(t, id)
  {
  }

  /**
   * Once a withdrawal's job is dead, or parked behind a settled row: no continuation moves money for it if and
   * only if none moved so far, the server has decided every /pay of it, and no attempt can still write one.
   */
  lemma NeverMovesExactly(s: State, id: Id)
    requires Sound(s) && Ended(s.tables, id)
    ensures NeverMoves(s, id) <==> Clear(s, id) && !CanWrite(s, id)
  {
    hide Sound, Ended, CanWrite, WrittenSince, Clear, HasMoved, Leads;
    if CanWrite(s, id) {
      WritesAgainExactly(s, id);
      var t :| Leads(s, t) && WrittenSince(t, |s.worker.wire.log|, id);
      WrittenIsUnclear(t, |s.worker.wire.log|, id);
      UnclearMayMove(s, t, id);
    } else if !Clear(s, id) {
      LeadsToItself(s);
      UnclearMayMove(s, s, id);
    } else {
      forall t | Leads(s, t)
        ensures !HasMoved(t, id)
      {
        ClearForGood(s, t, id);
      }
    }
  }

  /** Given back by the system: nothing moved, nothing can. */
  lemma ReturnedNeverMoves(s: State, id: Id)
    requires Sound(s) && id in s.tables.rows && Returned(s.tables.rows[id]) && Ended(s.tables, id)
    ensures NeverMoves(s, id)
  {
    hide Sound, Ended, NeverMoves, Clear, Able, Returned;
    SoundIsSafe(s);
    OneOk(s, id);
    hide Safe, Parked, Waits, HasMoved, Live;
    NeverMovesExactly(s, id);
  }

  /**
   * An operator's refund in review: the player is never paid as well, now or in any continuation, if and only if
   * the server has decided every /pay of the withdrawal, none moved money, and no attempt can still write one.
   */
  lemma RefundIsSafeExactly(s: State, id: Id)
    requires Sound(s) && id in s.tables.rows && s.tables.rows[id].status == ManualReview
    ensures NeverMoves(With(s, ResolveReview(s.tables, id, false)), id) <==> Clear(s, id) && !CanWrite(s, id)
  {
    hide Sound, Able, Ended, NeverMoves, HasMoved;
    var t := With(s, ResolveReview(s.tables, id, false));
    SameMoney(s, t);
    RefundEndsIt(s, id);
    hide ResolveReview, Clear;
    assert CanWrite(t, id) == CanWrite(s, id);
    NeverMovesExactly(t, id);
  }

  lemma RefundEndsIt(s: State, id: Id)
    requires Sound(s) && id in s.tables.rows && s.tables.rows[id].status == ManualReview
    ensures var g := ResolveReview(s.tables, id, false);
            Sound(With(s, g)) && Ended(g, id) && g.claims == s.tables.claims
  {
    hide Sound, ResolveReview, Ended, Parked;
    var e := AtGateway(ReviewResolved(id, false), 0);
    assert Enabled(s, e) && Apply(s, e) == With(s, ResolveReview(s.tables, id, false));
    SoundIsSafe(s);
    ReviewedIsParked(s, id);
    ReviewEnds(s.tables, id);
    hide Enabled, Apply, Safe;
    StepKeepsSound(s, e);
  }

  lemma SoundIsSafe(s: State)
    requires Sound(s)
    ensures Safe(s)
  {
    hide Safe;
  }

  lemma ReviewedIsParked(s: State, id: Id)
    requires Safe(s) && id in s.tables.rows && s.tables.rows[id].status == ManualReview
    ensures Parked(JobAt(s.tables, id))
  {
    OneOk(s, id);
    hide Safe, OutOfReach, Parked, Waits, HasMoved, Live;
  }

  lemma ReviewEnds(g: Tables, id: Id)
    requires id in g.rows && g.rows[id].status == ManualReview && Parked(JobAt(g, id))
    ensures Ended(ResolveReview(g, id, false), id) && ResolveReview(g, id, false).claims == g.claims
  {
  }

  lemma GatewayStep(run: seq<State>, events: seq<Event>, n: nat, e: GatewayEvent, now: int)
    requires IsRun(run, events) && n < |events| && events[n] == AtGateway(e, now)
    ensures GatewayEnabled(run[n], e) && run[n + 1] == With(run[n], ApplyGateway(run[n], e, now))
  {
    hide ApplyGateway, GatewayEnabled;
  }

  lemma ReviewApplies(s: State, id: Id, now: int)
    ensures ApplyGateway(s, ReviewResolved(id, false), now) == ResolveReview(s.tables, id, false)
  {
  }

  lemma ReviewRefunds(g: Tables, id: Id)
    requires id in g.rows && g.rows[id].status == ManualReview
    ensures id in ResolveReview(g, id, false).rows && ConfirmedNotPaid in ResolveReview(g, id, false).rows[id].refunds
  {
  }

  /** In a run, as the operator finds it. */
  lemma OperatorRefunds(run: seq<State>, events: seq<Event>, n: nat, id: Id, now: int)
    requires IsRun(run, events) && n < |events| && events[n] == AtGateway(ReviewResolved(id, false), now)
    requires id in run[n].tables.rows && run[n].tables.rows[id].status == ManualReview
    ensures id in run[n + 1].tables.rows && ConfirmedNotPaid in run[n + 1].tables.rows[id].refunds
    ensures NeverMoves(run[n + 1], id) <==> Clear(run[n], id) && !CanWrite(run[n], id)
  {
    hide IsRun, Sound, CanWrite, NeverMoves, Clear, ResolveReview;
    RunLength(run, events);
    EveryStateIsSound(run, events, n);
    GatewayStep(run, events, n, ReviewResolved(id, false), now);
    ReviewApplies(run[n], id, now);
    hide ApplyGateway, GatewayEnabled;
    ReviewRefunds(run[n].tables, id);
    RefundIsSafeExactly(run[n], id);
  }

  // Quarantine.

  /** In the queue for the player, with a job that was stopped for good. */
  predicate Stranded(g: Tables, id: Id) {
    && id in g.jobs && id in g.rows && g.rows[id].Open()
    && g.jobs[id].status == DeadLetter && g.jobs[id].token == None && g.jobs[id].lastError == Some(Quarantined)
  }

  /** A result for this withdrawal that the journal has not seen. */
  ghost predicate TakesResult(s: State, e: Event, id: Id) {
    && e.AtGateway? && e.event.ResultArrives? && e.event.result.job == Withdrawal(id)
    && e.event.result.event !in s.tables.journal
  }

  /** An operator's quarantine strands exactly the payouts that were queued or leased and still open. */
  lemma QuarantineStrandsExactly(g: Tables, id: Id)
    requires id in g.rows && id in g.jobs && !Stranded(g, id)
    ensures Stranded(QuarantineBot(g), id) <==> g.jobs[id].status in {Queued, Leased} && g.rows[id].Open()
  {
  }

  predicate Same(g: Tables, h: Tables, id: Id)
    requires id in g.jobs && id in g.rows
  {
    id in h.jobs && id in h.rows && h.jobs[id] == g.jobs[id] && h.rows[id] == g.rows[id]
  }

  lemma PeopleLeaveStranded(g: Tables, other: Id, payee: Name, amount: string, approved: bool, short: bool, now: int,
      id: Id)
    requires Stranded(g, id) && !Waits(g, id)
    ensures Same(g, RequestWithdrawal(g, other, payee, amount, approved, short, now), id)
    ensures Same(g, ApproveWithdrawal(g, other, payee, amount, short, now), id)
    ensures Same(g, HoldWithdrawal(g, other), id) && Same(g, RejectWithdrawal(g, other), id)
  {
  }

  lemma ReleasesLeaveStranded(g: Tables, other: Id, payee: Name, amount: string, flag: bool, at: int, code: Code, id: Id)
    requires Stranded(g, id) && !Waits(g, id)
    ensures Same(g, LandRelease(g, other, payee, amount, flag, at), id)
    ensures Same(g, GiveUpRelease(g, other, code, flag), id) && Same(g, RetryRelease(g, other), id)
  {
  }

  lemma ReviewsLeaveStranded(g: Tables, other: Id, flag: bool, verdict: Verdict, id: Id)
    requires Stranded(g, id)
    ensures Same(g, ResolveReview(g, other, flag), id) && Same(g, Gateway.SettleFromBalance(g, other, verdict), id)
    ensures Same(g, QuarantineBot(g), id)
  {
  }

  lemma SweepsLeaveStranded(g: Tables, now: int, id: Id)
    requires Stranded(g, id)
    ensures Same(g, ExpireLeases(g, now), id) && Same(g, WakeFundsQueue(g, now), id)
  {
  }

  lemma ClaimsLeaveStranded(g: Tables, event: EventId, choice: Given, now: int, id: Id)
    requires Stranded(g, id)
    ensures Same(g, ClaimJob(g, event, choice, now), id)
  {
    SweepsLeaveStranded(g, now, id);
    hide ExpireLeases;
  }

  /** Its lease is gone, so whatever a result says puts the withdrawal before an operator. */
  lemma ResultsFreeStranded(g: Tables, r: Result, now: int, id: Id)
    requires Stranded(g, id)
    ensures var h := HandleResult(g, r, now);
            if r.job == Withdrawal(id) && r.event !in g.journal
            then Freed(h, id) && h.rows[id] == g.rows[id].(status := ManualReview, error := Some(InvalidLease))
            else Same(g, h, id)
  {
  }

  lemma OpenDoesNotWait(s: State, id: Id)
    requires Safe(s) && id in s.tables.rows && s.tables.rows[id].Open()
    ensures !Waits(s.tables, id)
  {
    OneOk(s, id);
    hide Safe, OutOfReach, Waits, HasMoved, Live;
  }

  lemma StrandedIsOpen(g: Tables, id: Id)
    requires Stranded(g, id)
    ensures id in g.jobs && id in g.rows && g.rows[id].Open()
  {
  }

  lemma OtherStepsLeaveStranded(s: State, e: GatewayEvent, now: int, id: Id)
    requires Safe(s) && GatewayEnabled(s, e) && Stranded(s.tables, id) && !e.ResultArrives?
    ensures Same(s.tables, ApplyGateway(s, e, now), id)
  {
    hide Safe, Stranded, Same, Waits, Clear, Live, RequestWithdrawal, LandRelease, GiveUpRelease, RetryRelease,
      HoldWithdrawal, ApproveWithdrawal, RejectWithdrawal, ClaimJob, HandleResult, ExpireLeases, WakeFundsQueue,
      QuarantineBot, ResolveReview, SettleFromBalance, VerdictFor, AllDecided, Imitates;
    StrandedIsOpen(s.tables, id);
    OpenDoesNotWait(s, id);
    var g := s.tables;
    match e {
      case Requested(other, payee, amount, approved, short) =>
        PeopleLeaveStranded(g, other, payee, amount, approved, short, now, id);
      case HeldBack(other) => PeopleLeaveStranded(g, other, "", "", false, false, now, id);
      case Approved(other, payee, amount, short) => PeopleLeaveStranded(g, other, payee, amount, false, short, now, id);
      case RejectedByOperator(other) => PeopleLeaveStranded(g, other, "", "", false, false, now, id);
      case ReleaseLanded(other, payee, amount, byReceipt, at) =>
        ReleasesLeaveStranded(g, other, payee, amount, byReceipt, at, NotSent, id);
      case ReleaseGivenUp(other, code, shown) => ReleasesLeaveStranded(g, other, "", "", shown, 0, code, id);
      case ReleaseRetried(other) => ReleasesLeaveStranded(g, other, "", "", false, 0, NotSent, id);
      case ClaimArrives(event, choice) => ClaimsLeaveStranded(g, event, choice, now, id);
      case MaintenanceRuns => SweepsLeaveStranded(g, now, id);
      case FundsArrive => SweepsLeaveStranded(g, now, id);
      case BotQuarantined => ReviewsLeaveStranded(g, 0, false, Unclear, id);
      case ReviewResolved(other, paid) => ReviewsLeaveStranded(g, other, paid, Unclear, id);
      case BalanceJudged(other, tracked, drift) =>
        ReviewsLeaveStranded(g, other, false, VerdictFor(s, other, tracked, drift), id);
    }
  }

  lemma StrandedStep(s: State, e: GatewayEvent, now: int, id: Id)
    requires Safe(s) && GatewayEnabled(s, e) && Stranded(s.tables, id)
    ensures if TakesResult(s, AtGateway(e, now), id) then Freed(ApplyGateway(s, e, now), id)
            else Same(s.tables, ApplyGateway(s, e, now), id)
  {
    hide Safe, Stranded, HandleResult;
    if e.ResultArrives? {
      ResultsFreeStranded(s.tables, e.result, now, id);
    } else {
      hide GatewayEnabled, ApplyGateway;
      OtherStepsLeaveStranded(s, e, now, id);
    }
  }

  /** Out of the queue for good: before an operator for the lost lease, or settled. */
  predicate Freed(g: Tables, id: Id) {
    && id in g.rows && id in g.jobs && Dead(g.jobs[id]) && g.jobs[id].token == None
    && (g.rows[id].Settled() || (g.rows[id].status == ManualReview && g.rows[id].error == Some(InvalidLease)))
  }

  lemma FreedStays(s: State, e: GatewayEvent, now: int, id: Id)
    requires GatewayEnabled(s, e) && Freed(s.tables, id)
    ensures Freed(ApplyGateway(s, e, now), id)
  {
    hide Freed, VerdictFor, AllDecided, Imitates, ClaimJob, HandleResult, RequestWithdrawal, HoldWithdrawal,
      ApproveWithdrawal, RejectWithdrawal, LandRelease, GiveUpRelease, RetryRelease, ResolveReview, SettleFromBalance,
      ExpireLeases, WakeFundsQueue, QuarantineBot;
    var g := s.tables;
    match e {
      case Requested(other, payee, amount, approved, short) =>
        PeopleLeaveFreed(g, other, payee, amount, approved, short, now, id);
      case Approved(other, payee, amount, short) => PeopleLeaveFreed(g, other, payee, amount, false, short, now, id);
      case HeldBack(other) => PeopleLeaveFreed(g, other, "", "", false, false, now, id);
      case RejectedByOperator(other) => PeopleLeaveFreed(g, other, "", "", false, false, now, id);
      case ReleaseLanded(other, payee, amount, byReceipt, at) =>
        ReleasesLeaveFreed(g, other, payee, amount, byReceipt, at, NotSent, id);
      case ReleaseGivenUp(other, code, shown) => ReleasesLeaveFreed(g, other, "", "", shown, 0, code, id);
      case ReleaseRetried(other) => ReleasesLeaveFreed(g, other, "", "", false, 0, NotSent, id);
      case ClaimArrives(event, choice) => ClaimsLeaveFreed(g, event, choice, now, id);
      case ResultArrives(result) => ResultsLeaveFreed(g, result, now, id);
      case ReviewResolved(other, paid) => ReviewsLeaveFreed(g, other, paid, Unclear, id);
      case BalanceJudged(other, tracked, drift) =>
        ReviewsLeaveFreed(g, other, false, VerdictFor(s, other, tracked, drift), id);
      case MaintenanceRuns | FundsArrive | BotQuarantined => SweepsLeaveFreed(g, now, id);
    }
  }

  lemma PeopleLeaveFreed(
      g: Tables, other: Id, payee: Name, amount: string, approved: bool, short: bool, now: int, id: Id)
    requires Freed(g, id)
    ensures Freed(RequestWithdrawal(g, other, payee, amount, approved, short, now), id)
    ensures Freed(ApproveWithdrawal(g, other, payee, amount, short, now), id)
    ensures Freed(HoldWithdrawal(g, other), id) && Freed(RejectWithdrawal(g, other), id)
  {
  }

  lemma ReleasesLeaveFreed(g: Tables, other: Id, payee: Name, amount: string, flag: bool, at: int, code: Code, id: Id)
    requires Freed(g, id)
    ensures Freed(LandRelease(g, other, payee, amount, flag, at), id)
    ensures Freed(GiveUpRelease(g, other, code, flag), id) && Freed(RetryRelease(g, other), id)
  {
  }

  lemma ReviewsLeaveFreed(g: Tables, other: Id, flag: bool, verdict: Verdict, id: Id)
    requires Freed(g, id)
    ensures Freed(ResolveReview(g, other, flag), id) && Freed(Gateway.SettleFromBalance(g, other, verdict), id)
  {
  }

  lemma SweepsLeaveFreed(g: Tables, now: int, id: Id)
    requires Freed(g, id)
    ensures Freed(ExpireLeases(g, now), id) && Freed(WakeFundsQueue(g, now), id) && Freed(QuarantineBot(g), id)
  {
  }

  lemma ClaimsLeaveFreed(g: Tables, event: EventId, choice: Given, now: int, id: Id)
    requires Freed(g, id)
    ensures Freed(ClaimJob(g, event, choice, now), id)
  {
  }

  lemma ResultsLeaveFreed(g: Tables, r: Result, now: int, id: Id)
    requires Freed(g, id)
    ensures Freed(HandleResult(g, r, now), id)
  {
  }

  ghost predicate ResultTaken(run: seq<State>, events: seq<Event>, n: nat, m: nat, id: Id) {
    |run| == |events| + 1 && exists j :: n <= j < m && j < |events| && TakesResult(run[j], events[j], id)
  }

  /**
   * What a quarantine stopped stays in the queue exactly until a result of it arrives: nothing else takes the
   * withdrawal out again, and once out it never returns.
   */
  lemma {:induction false} QuarantineStrandsUntilReported(
      run: seq<State>, events: seq<Event>, n: nat, m: nat, id: Id, now: int)
    requires IsRun(run, events) && n < m < |run| && events[n] == AtGateway(BotQuarantined, now)
    requires id in run[n].tables.rows && run[n].tables.rows[id].Open()
    requires id in run[n].tables.jobs && run[n].tables.jobs[id].status in {Queued, Leased}
    ensures if ResultTaken(run, events, n + 1, m, id) then Freed(run[m].tables, id)
            else Stranded(run[m].tables, id) && run[m].tables.rows[id] == run[n].tables.rows[id]
  {
    hide IsRun, Freed, Safe, Sound, TakesResult, Enabled, Apply, ApplyGateway, GatewayEnabled;
    RunLength(run, events);
    if m == n + 1 {
      GatewayStep(run, events, n, BotQuarantined, now);
      NoneTaken(run, events, m, id);
      QuarantineStrands(run[n], id, now);
    } else {
      QuarantineStrandsUntilReported(run, events, n, m - 1, id, now);
      EveryStateIsSafe(run, events, m - 1);
      RunSteps(run, events, m - 1);
      StrandedOrFreed(run[m - 1], events[m - 1], id);
      TakenGrows(run, events, n + 1, m, id);
      hide ResultTaken;
    }
  }

  lemma NoneTaken(run: seq<State>, events: seq<Event>, n: nat, id: Id)
    ensures !ResultTaken(run, events, n, n, id)
  {
  }

  lemma QuarantineStrands(s: State, id: Id, now: int)
    requires id in s.tables.rows && s.tables.rows[id].Open()
    requires id in s.tables.jobs && s.tables.jobs[id].status in {Queued, Leased}
    ensures Stranded(ApplyGateway(s, BotQuarantined, now), id)
    ensures ApplyGateway(s, BotQuarantined, now).rows == s.tables.rows
  {
  }

  lemma TakenGrows(run: seq<State>, events: seq<Event>, n: nat, m: nat, id: Id)
    requires |run| == |events| + 1 && n < m < |run|
    ensures ResultTaken(run, events, n, m, id) <==>
              ResultTaken(run, events, n, m - 1, id) || TakesResult(run[m - 1], events[m - 1], id)
  {
    hide TakesResult;
  }

  lemma StrandedOrFreed(s: State, e: Event, id: Id)
    requires Safe(s) && Enabled(s, e)
    ensures Stranded(s.tables, id) ==>
              if TakesResult(s, e, id) then Freed(Apply(s, e).tables, id) else Same(s.tables, Apply(s, e).tables, id)
    ensures Freed(s.tables, id) ==> Freed(Apply(s, e).tables, id)
  {
    hide Safe, Freed, GatewayEnabled, WorkerEnabled, ApplyGateway, ApplyWorker;
    match e {
      case AtGateway(event, now) =>
        if Stranded(s.tables, id) {
          StrandedStep(s, event, now, id);
        }
        if Freed(s.tables, id) {
          FreedStays(s, event, now, id);
        }
      case _ =>
    }
  }

  /** No attempt is under way, and every result there is has been taken. */
  ghost predicate AllTaken(s: State, id: Id) {
    && !Live(s, id)
    && forall r | r in s.worker.wire.posted && r.job == Withdrawal(id) :: r.event in s.tables.journal
  }

  lemma JournalGrows(s: State, e: GatewayEvent, now: int)
    requires GatewayEnabled(s, e)
    ensures s.tables.journal <= ApplyGateway(s, e, now).journal
  {
    hide VerdictFor, AllDecided, Imitates;
  }

  lemma StepKeepsAllTaken(s: State, e: Event, id: Id)
    requires Safe(s) && Enabled(s, e) && Stranded(s.tables, id) && AllTaken(s, id)
    ensures AllTaken(Apply(s, e), id) && !TakesResult(s, e, id)
  {
    assert Shape(s) by { hide Shape, Leases, Rows, Once; }
    hide Safe, GatewayEnabled, WorkerEnabled, ApplyGateway, ApplyWorker, Live, Shape, GoesOn;
    match e {
      case AtGateway(event, now) =>
        GatewayRevivesNoDoubt(s, event, now, id);
        JournalGrows(s, event, now);
        ArrivesPosted(s, event);
      case AtWorker(did) =>
        WorkerOnlyHeld(s, did, id);
        WorkerGoesOn(s, did);
        PostsOnlyHeld(s, ApplyWorker(s, did), id);
      case AtServer(sent, fate) => assert Live(Apply(s, e), id) == Live(s, id) by { SameLease(s, sent, fate, id); }
    }
  }

  lemma ArrivesPosted(s: State, e: GatewayEvent)
    requires GatewayEnabled(s, e)
    ensures e.ResultArrives? ==> e.result in s.worker.wire.posted
  {
  }

  lemma SameLease(s: State, sent: nat, fate: Fate, id: Id)
    requires sent < |s.fates|
    ensures Live(s.(fates := s.fates[sent := fate]), id) == Live(s, id)
  {
  }

  lemma PostsOnlyHeld(s: State, v: Worker, id: Id)
    requires GoesOn(s.worker, v) && !Live(s, id)
    ensures forall r | r in v.wire.posted && r.job == Withdrawal(id) :: r in s.worker.wire.posted
  {
    forall k | 0 <= k < |v.wire.posted| && v.wire.posted[k].job == Withdrawal(id)
      ensures v.wire.posted[k] in s.worker.wire.posted
    {
      if k < |s.worker.wire.posted| {
        PostedStays(s.worker, v, k);
      } else {
        NewIsReported(s.worker, v, k);
      }
    }
  }

  /** A payout quarantined before anybody worked on it is never heard of again: its withdrawal stays queued for good. */
  lemma {:induction false} QuarantineStrandsForGood(
      run: seq<State>, events: seq<Event>, n: nat, m: nat, id: Id, now: int)
    requires IsRun(run, events) && n < m < |run| && events[n] == AtGateway(BotQuarantined, now)
    requires id in run[n].tables.rows && run[n].tables.rows[id].Open()
    requires id in run[n].tables.jobs && run[n].tables.jobs[id].status in {Queued, Leased} && AllTaken(run[n], id)
    ensures Stranded(run[m].tables, id) && run[m].tables.rows[id] == run[n].tables.rows[id] && AllTaken(run[m], id)
  {
    hide IsRun, Freed, Safe, Sound, TakesResult, AllTaken, Enabled, Apply, ApplyGateway, GatewayEnabled;
    RunLength(run, events);
    if m == n + 1 {
      GatewayStep(run, events, n, BotQuarantined, now);
      QuarantineStrands(run[n], id, now);
      QuarantineTakesNothing(run[n], id, now);
    } else {
      QuarantineStrandsForGood(run, events, n, m - 1, id, now);
      EveryStateIsSafe(run, events, m - 1);
      RunSteps(run, events, m - 1);
      StepKeepsAllTaken(run[m - 1], events[m - 1], id);
      StrandedOrFreed(run[m - 1], events[m - 1], id);
    }
  }

  lemma QuarantineTakesNothing(s: State, id: Id, now: int)
    requires AllTaken(s, id)
    ensures AllTaken(With(s, ApplyGateway(s, BotQuarantined, now)), id)
  {
  }
}
