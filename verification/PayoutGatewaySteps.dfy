/**
 * Every transaction of the gateway, and every decision of the server, keeps the invariant.
 */
module PayoutGatewaySteps {
  import opened BalanceEvidence
  import opened Decimal
  import opened Gateway
  import opened MoneyReading
  import opened Options
  import opened PayoutInvariant
  import opened PayoutSystem
  import opened PayoutWorkerSteps

  function With(s: State, tables: Tables): State {
    s.(tables := tables)
  }

  lemma JobsJudged(s: State, g: Tables)
    requires Leases(s) && LiveLease(With(s, g)) == LiveLease(s)
    requires forall id | id in g.jobs :: JobOk(s, id, g.jobs[id])
    ensures Leases(With(s, g))
  {
    var t := With(s, g);
    SameMoney(s, t);
    hide Clear, ClearBut, LiveLease;
    assert forall id | id in g.jobs :: JobOk(t, id, g.jobs[id]);
  }

  lemma RowsJudged(s: State, g: Tables)
    requires LiveLease(With(s, g)) == LiveLease(s)
    requires forall id | id in g.rows :: RowOk(s, id, g.rows[id], JobAt(g, id), Waits(g, id))
    requires forall id | id in g.releases :: id in g.rows
    ensures Rows(With(s, g))
  {
    var t := With(s, g);
    SameMoney(s, t);
    hide Clear, HasMoved, LiveLease;
  }

  /** The claims are as they were, or one more was answered with no payout. */
  ghost predicate LeasesNothing(s: State, g: Tables) {
    g.claims == s.tables.claims
    || exists event, given: Given ::
         && event !in s.tables.claims && event in s.worker.wire.claimsSent
         && !given.ForPayout?
         && g.claims == s.tables.claims[event := given]
  }

  lemma TablesKeepShape(s: State, g: Tables)
    requires Shape(s) && Once(s) && LeasesNothing(s, g)
    requires forall id | id in s.tables.jobs :: id in g.jobs
    requires forall id | id in g.jobs :: id in g.rows
    ensures Shape(With(s, g)) && Once(With(s, g)) && LiveLease(With(s, g)) == LiveLease(s)
  {
    var t := With(s, g);
    SameMoney(s, t);
    hide Clear, ClearBut, HasMoved;
    assert Shape(t) by {
      hide Once, LiveLease;
    }
    assert Once(t) by {
      hide Shape, LiveLease;
    }
  }

  /** A transaction that gives out no lease is judged job by job and withdrawal by withdrawal. */
  lemma TablesKeepSafe(s: State, g: Tables)
    requires Safe(s) && LeasesNothing(s, g)
    requires forall id | id in s.tables.jobs :: id in g.jobs
    requires forall id | id in g.jobs :: id in g.rows && JobOk(s, id, g.jobs[id])
    requires forall id | id in g.rows :: RowOk(s, id, g.rows[id], JobAt(g, id), Waits(g, id))
    requires forall id | id in g.releases :: id in g.rows
    ensures Safe(With(s, g))
  {
    hide Shape, Leases, Rows, Once, JobOk, RowOk, LiveLease;
    TablesKeepShape(s, g);
    JobsJudged(s, g);
    RowsJudged(s, g);
  }

  /** What the invariant says of one withdrawal and its job. */
  lemma OneOk(s: State, id: Id)
    requires Safe(s)
    ensures id in s.tables.jobs ==> id in s.tables.rows && JobOk(s, id, s.tables.jobs[id])
    ensures id in s.tables.rows ==> RowOk(s, id, s.tables.rows[id], JobAt(s.tables, id), Waits(s.tables, id))
  {
    hide Once, JobOk, RowOk;
  }

  lemma ReleasesAreRows(s: State)
    requires Safe(s)
    ensures forall id | id in s.tables.releases :: id in s.tables.rows
  {
    hide Shape, Leases, Once, RowOk;
  }

  /** A transaction on one withdrawal and its job. */
  lemma OneKeepsSafe(s: State, g: Tables, id: Id)
    requires Safe(s) && g.claims == s.tables.claims && id in g.rows
    requires g.rows == s.tables.rows[id := g.rows[id]]
    requires g.jobs == s.tables.jobs || (id in g.jobs && g.jobs == s.tables.jobs[id := g.jobs[id]])
    requires g.releases == s.tables.releases
             || (id in g.releases && g.releases == s.tables.releases[id := g.releases[id]])
    requires id in g.jobs ==> JobOk(s, id, g.jobs[id])
    requires RowOk(s, id, g.rows[id], JobAt(g, id), Waits(g, id))
    ensures Safe(With(s, g))
  {
    hide Safe, JobOk, RowOk;
    ReleasesAreRows(s);
    forall other | other in g.jobs
      ensures other in g.rows && JobOk(s, other, g.jobs[other])
    {
      OneOk(s, other);
    }
    forall other | other in g.rows
      ensures RowOk(s, other, g.rows[other], JobAt(g, other), Waits(g, other))
    {
      OneOk(s, other);
    }
    forall other | other in s.tables.jobs
      ensures other in g.jobs
    {
    }
    TablesKeepSafe(s, g);
  }

  lemma UnknownIsClear(s: State, id: Id)
    requires Safe(s) && id !in s.tables.jobs
    ensures Clear(s, id) && !Live(s, id)
  {
    hide Leases, Rows, Once;
  }

  /** What nobody can reach may be queued, or wait for the vault first. */
  lemma RouteKeepsSafe(s: State, g: Tables, id: Id, row: Row, payee: Name, amount: string, short: bool, now: int)
    requires Safe(s) && g == s.tables.(rows := s.tables.rows[id := row])
    requires OutOfReach(s, id, JobAt(s.tables, id)) && !Waits(s.tables, id)
    requires row.status == InQueue && row.refunds == [] && row.paidBy == None
    ensures Safe(With(s, Route(g, id, payee, amount, short, now)))
  {
    hide Safe, Clear, Live;
    OneOk(s, id);
    if id !in s.tables.jobs {
      NothingReportedFor(s, id);
    }
    OneKeepsSafe(s, Route(g, id, payee, amount, short, now), id);
  }

  lemma NewKeepsSafe(s: State, id: Id)
    requires Safe(s) && id !in s.tables.jobs && id !in s.tables.rows
    ensures Safe(With(s, s.tables.(rows := s.tables.rows[id := Row(PendingApproval, None, [], None)])))
  {
    hide Safe, Clear, Live;
    UnknownIsClear(s, id);
    ReleasesAreRows(s);
    OneKeepsSafe(s, s.tables.(rows := s.tables.rows[id := Row(PendingApproval, None, [], None)]), id);
  }

  lemma RequestKeepsSafe(s: State, id: Id, payee: Name, amount: string, approved: bool, short: bool, now: int)
    requires Safe(s)
    ensures Safe(With(s, RequestWithdrawal(s.tables, id, payee, amount, approved, short, now)))
  {
    hide Safe, Clear, Live, Route;
    if id in s.tables.rows || id in s.tables.jobs {
      assert With(s, s.tables) == s;
    } else if approved {
      UnknownIsClear(s, id);
      ReleasesAreRows(s);
      var row := Row(InQueue, None, [], None);
      RouteKeepsSafe(s, s.tables.(rows := s.tables.rows[id := row]), id, row, payee, amount, short, now);
    } else {
      NewKeepsSafe(s, id);
    }
  }

  lemma NothingReportedFor(s: State, id: Id)
    requires Safe(s) && id !in s.tables.jobs
    ensures forall k | 0 <= k < |s.worker.wire.posted| :: s.worker.wire.posted[k].job != Withdrawal(id)
  {
    hide Leases, Rows, Once;
  }

  lemma HoldKeepsSafe(s: State, id: Id)
    requires Safe(s)
    ensures Safe(With(s, HoldWithdrawal(s.tables, id)))
  {
    hide Safe, Clear, Live;
    var g := HoldWithdrawal(s.tables, id);
    if g == s.tables {
      assert With(s, g) == s;
    } else {
      OneOk(s, id);
      OneKeepsSafe(s, g, id);
    }
  }

  lemma ApproveKeepsSafe(s: State, id: Id, payee: Name, amount: string, short: bool, now: int)
    requires Safe(s)
    ensures Safe(With(s, ApproveWithdrawal(s.tables, id, payee, amount, short, now)))
  {
    hide Safe, Clear, Live, HasMoved, Route;
    if id !in s.tables.rows || s.tables.rows[id].status != PendingApproval {
      assert With(s, s.tables) == s;
    } else {
      OneOk(s, id);
      var row := s.tables.rows[id].(status := InQueue, error := None);
      RouteKeepsSafe(s, s.tables.(rows := s.tables.rows[id := row]), id, row, payee, amount, short, now);
    }
  }

  /** The second hop of a withdrawal the vault has funded. */
  lemma LandKeepsSafe(s: State, id: Id, payee: Name, amount: string, byReceipt: bool, at: int)
    requires Safe(s)
    ensures Safe(With(s, LandRelease(s.tables, id, payee, amount, byReceipt, at)))
  {
    hide Safe, Clear, Live, HasMoved;
    var g := LandRelease(s.tables, id, payee, amount, byReceipt, at);
    if id !in s.tables.rows || !Waits(s.tables, id) {
      assert With(s, s.tables) == s;
    } else {
      OneOk(s, id);
      if id !in s.tables.jobs {
        NothingReportedFor(s, id);
      }
      OneKeepsSafe(s, g, id);
    }
  }

  lemma GiveUpKeepsSafe(s: State, id: Id, code: Code, shown: bool)
    requires Safe(s)
    ensures Safe(With(s, GiveUpRelease(s.tables, id, code, shown)))
  {
    hide Safe, Clear, Live, HasMoved;
    if id !in s.tables.rows || !Waits(s.tables, id) {
      assert With(s, s.tables) == s;
    } else {
      OneOk(s, id);
      OneKeepsSafe(s, GiveUpRelease(s.tables, id, code, shown), id);
    }
  }

  lemma RetryKeepsSafe(s: State, id: Id)
    requires Safe(s)
    ensures Safe(With(s, RetryRelease(s.tables, id)))
  {
    hide Safe, Clear, Live, HasMoved;
    var g := RetryRelease(s.tables, id);
    if g == s.tables {
      assert With(s, g) == s;
    } else {
      OneOk(s, id);
      OneKeepsSafe(s, g, id);
    }
  }

  lemma RejectKeepsSafe(s: State, id: Id)
    requires Safe(s)
    ensures Safe(With(s, RejectWithdrawal(s.tables, id)))
  {
    hide Safe, Clear, Live, HasMoved;
    var g := RejectWithdrawal(s.tables, id);
    if id !in s.tables.rows || s.tables.rows[id].status != PendingApproval {
      assert With(s, g) == s;
    } else {
      OneOk(s, id);
      OneKeepsSafe(s, g, id);
    }
  }

  lemma ExpireKeepsSafe(s: State, now: int)
    requires Safe(s)
    ensures Safe(With(s, ExpireLeases(s.tables, now)))
  {
    hide Safe, Clear, Live, HasMoved;
    var g := ExpireLeases(s.tables, now);
    forall id
      ensures id in g.jobs ==> id in g.rows && JobOk(s, id, g.jobs[id])
      ensures id in g.rows ==> RowOk(s, id, g.rows[id], JobAt(g, id), Waits(g, id))
    {
      OneOk(s, id);
    }
    ReleasesAreRows(s);
    TablesKeepSafe(s, g);
  }

  lemma WakeKeepsSafe(s: State, now: int)
    requires Safe(s)
    ensures Safe(With(s, WakeFundsQueue(s.tables, now)))
  {
    hide Safe, Clear, Live, HasMoved;
    var g := WakeFundsQueue(s.tables, now);
    forall id
      ensures id in g.jobs ==> id in g.rows && JobOk(s, id, g.jobs[id])
      ensures id in g.rows ==> RowOk(s, id, g.rows[id], JobAt(g, id), Waits(g, id))
    {
      OneOk(s, id);
    }
    ReleasesAreRows(s);
    TablesKeepSafe(s, g);
  }

  lemma QuarantineKeepsSafe(s: State)
    requires Safe(s)
    ensures Safe(With(s, QuarantineBot(s.tables)))
  {
    hide Safe, Clear, Live, HasMoved;
    var g := QuarantineBot(s.tables);
    forall id
      ensures id in g.jobs ==> id in g.rows && JobOk(s, id, g.jobs[id])
      ensures id in g.rows ==> RowOk(s, id, g.rows[id], JobAt(g, id), Waits(g, id))
    {
      OneOk(s, id);
    }
    ReleasesAreRows(s);
    TablesKeepSafe(s, g);
  }

  lemma ResolveReviewKeepsSafe(s: State, id: Id, paid: bool)
    requires Safe(s)
    ensures Safe(With(s, ResolveReview(s.tables, id, paid)))
  {
    hide Safe, Clear, Live, HasMoved;
    var g := ResolveReview(s.tables, id, paid);
    if id !in s.tables.rows || s.tables.rows[id].status != ManualReview {
      assert With(s, g) == s;
    } else {
      OneOk(s, id);
      OneKeepsSafe(s, g, id);
    }
  }

  lemma NotMovedIsClear(s: State, id: Id)
    requires AllDecided(s, id) && !HasMoved(s, id)
    ensures Clear(s, id)
  {
  }

  /** Unless unbooked money imitates the payout, its balance verdict tells the truth about it, or nothing. */
  lemma VerdictIsRight(s: State, id: Id, tracked: int, drift: int)
    requires GatewayEnabled(s, BalanceJudged(id, tracked, drift))
    ensures VerdictFor(s, id, tracked, drift) == NotPaidInGame ==> Clear(s, id)
    ensures VerdictFor(s, id, tracked, drift) == PaidInGame ==> HasMoved(s, id)
  {
    hide HasMoved, Clear, AllDecided, Judge, Value, Imitates;
    if id in s.tables.jobs && IsAmountText(s.tables.jobs[id].amount) {
      var amount := Value(s.tables.jobs[id].amount);
      if amount > 0 {
        WrongOnlyIfDriftImitatesThePayout(tracked, amount, HasMoved(s, id), drift);
        if !HasMoved(s, id) {
          NotMovedIsClear(s, id);
        }
      } else {
        NothingIsUnclear(tracked, Reading(tracked, amount, HasMoved(s, id), drift), amount);
      }
    }
  }

  lemma NothingIsUnclear(tracked: int, low: int, amount: nat)
    requires amount == 0
    ensures Judge(tracked, low, 1, amount) == Unclear
  {
  }

  lemma BalanceJudgedKeepsSafe(s: State, id: Id, tracked: int, drift: int)
    requires Safe(s) && GatewayEnabled(s, BalanceJudged(id, tracked, drift))
    ensures Safe(With(s, Gateway.SettleFromBalance(s.tables, id, VerdictFor(s, id, tracked, drift))))
  {
    hide Safe, Clear, Live, HasMoved, VerdictFor;
    var verdict := VerdictFor(s, id, tracked, drift);
    var g := Gateway.SettleFromBalance(s.tables, id, verdict);
    if id !in s.tables.rows || s.tables.rows[id].status != ManualReview || s.tables.rows[id].error != Some(Unconfirmed)
       || verdict == Unclear {
      assert With(s, g) == s;
    } else {
      VerdictIsRight(s, id, tracked, drift);
      OneOk(s, id);
      OneKeepsSafe(s, g, id);
    }
  }

  /** A result still good under its lease: nobody works under that lease any more. */
  lemma ReportedIsDone(s: State, r: Result)
    requires Safe(s) && r in s.worker.wire.posted && r.job.Withdrawal? && r.job.id in s.tables.jobs
    ensures var id, job := r.job.id, s.tables.jobs[r.job.id];
            job.status == Leased && job.token == Some(r.token) ==>
              !Live(s, id) && (SaysNotMoved(r.outcome) ==> Clear(s, id))
  {
    hide Once, Rows, Clear, ClearBut;
    var k :| 0 <= k < |s.worker.wire.posted| && s.worker.wire.posted[k] == r;
    assert JobOk(s, r.job.id, s.tables.jobs[r.job.id]);
  }

  lemma SettledIsOk(s: State, id: Id, r: Result, now: int)
    requires Safe(s) && r in s.worker.wire.posted && r.job == Withdrawal(id) && id in s.tables.jobs && id in s.tables.rows
    ensures var after := SettleResult(s.tables.jobs[id], s.tables.rows[id], r, now);
            JobOk(s, id, after.0) && RowOk(s, id, after.1, Some(after.0), Waits(s.tables, id))
  {
    hide Safe, Clear, Live, HasMoved, Waits;
    OneOk(s, id);
    ReportedIsDone(s, r);
    var job, row := s.tables.jobs[id], s.tables.rows[id];
    if LateConfirmation(job, r, now) {
    } else if !ValidLease(job, r, now) {
    } else if r.outcome == Completed {
    } else {
    }
  }

  lemma ResultKeepsSafe(s: State, r: Result, now: int)
    requires Safe(s) && r in s.worker.wire.posted
    ensures Safe(With(s, HandleResult(s.tables, r, now)))
  {
    hide Safe, JobOk, RowOk, SettleResult;
    var g := HandleResult(s.tables, r, now);
    if r.event !in s.tables.journal && r.job.Withdrawal? && r.job.id in s.tables.jobs {
      var id := r.job.id;
      OneOk(s, id);
      SettledIsOk(s, id, r, now);
      OneKeepsSafe(s, g, id);
    } else {
      JournalIsFree(s, g);
    }
  }

  lemma JournalIsFree(s: State, g: Tables)
    requires Safe(s) && g == s.tables.(journal := g.journal)
    ensures Safe(With(s, g))
  {
    hide Safe, JobOk, RowOk;
    forall id
      ensures id in g.jobs ==> id in g.rows && JobOk(s, id, g.jobs[id])
      ensures id in g.rows ==> RowOk(s, id, g.rows[id], JobAt(g, id), Waits(g, id))
    {
      OneOk(s, id);
    }
    ReleasesAreRows(s);
    TablesKeepSafe(s, g);
  }

  // Claims.

  /** The worker takes up the lease only if it still waits for the answer to this very claim. */
  lemma LeaseIsTaken(s: State, event: EventId, id: Id, now: int)
    requires Safe(s) && event !in s.tables.claims && Claimable(s.tables, id, now)
    ensures var t := With(s, LeaseJob(s.tables, event, id, now));
            if s.worker.desk.phase.Claiming? && s.worker.desk.phase.event == event
            then LiveLease(s).None? && LiveLease(t) == Some((id, event)) else LiveLease(t) == LiveLease(s)
  {
    hide Leases, Rows, Once;
  }

  lemma LeaseKeepsShape(s: State, event: EventId, id: Id, now: int)
    requires Shape(s) && event !in s.tables.claims && event in s.worker.wire.claimsSent && Claimable(s.tables, id, now)
    ensures Shape(With(s, LeaseJob(s.tables, event, id, now)))
  {
    var t := With(s, LeaseJob(s.tables, event, id, now));
    assert forall token | token in s.tables.claims :: token in t.tables.claims;
    assert forall other | other in s.tables.jobs :: other in t.tables.jobs;
    assert forall i :: IsPay(s, i) <==> IsPay(t, i);
    assert t.worker == s.worker && t.fates == s.fates;
  }

  lemma LeaseKeepsOnce(s: State, event: EventId, id: Id, now: int)
    requires Once(s) && Claimable(s.tables, id, now)
    ensures Once(With(s, LeaseJob(s.tables, event, id, now)))
  {
    var t := With(s, LeaseJob(s.tables, event, id, now));
    SameMoney(s, t);
    hide Clear, ClearBut, HasMoved, LeaseJob, Claimable;
  }

  /** Nothing was reported under a token nobody was given yet. */
  lemma TokenIsFresh(s: State, event: EventId)
    requires Safe(s) && event !in s.tables.claims
    ensures forall k | 0 <= k < |s.worker.wire.posted| :: s.worker.wire.posted[k].token != event
  {
    hide Leases, Rows, Once;
  }

  lemma ClearIsClearBut(s: State, id: Id)
    requires Clear(s, id)
    ensures ClearBut(s, id, -1)
  {
  }

  lemma LeasedJobsOk(s: State, event: EventId, id: Id, now: int)
    requires Safe(s) && event !in s.tables.claims && Claimable(s.tables, id, now)
    ensures Leases(With(s, LeaseJob(s.tables, event, id, now)))
  {
    hide Shape, Rows, Once, RowOk, Clear, ClearBut, LiveLease;
    var t := With(s, LeaseJob(s.tables, event, id, now));
    SameMoney(s, t);
    LeaseIsTaken(s, event, id, now);
    TokenIsFresh(s, event);
    OneOk(s, id);
    ClearIsClearBut(s, id);
    forall other | other in t.tables.jobs
      ensures JobOk(t, other, t.tables.jobs[other])
    {
      OneOk(s, other);
    }
  }

  lemma OwnRowOk(s: State, event: EventId, id: Id, now: int)
    requires Safe(s) && event !in s.tables.claims && Claimable(s.tables, id, now)
    ensures var t := With(s, LeaseJob(s.tables, event, id, now));
            RowOk(t, id, t.tables.rows[id], JobAt(t.tables, id), Waits(t.tables, id))
  {
    hide Safe, JobOk, Clear, Live, HasMoved;
    OneOk(s, id);
    SameMoney(s, With(s, LeaseJob(s.tables, event, id, now)));
  }

  lemma OtherRowOk(s: State, event: EventId, id: Id, now: int, other: Id)
    requires Safe(s) && event !in s.tables.claims && Claimable(s.tables, id, now)
    requires other in s.tables.rows && other != id
    ensures var t := With(s, LeaseJob(s.tables, event, id, now));
            RowOk(t, other, t.tables.rows[other], JobAt(t.tables, other), Waits(t.tables, other))
  {
    var t := With(s, LeaseJob(s.tables, event, id, now));
    hide Safe, Clear, LiveLease, HasMoved, Claimable, Parked;
    SameMoney(s, t);
    LeaseIsTaken(s, event, id, now);
    OneOk(s, other);
    assert t.tables.rows[other] == s.tables.rows[other] && JobAt(t.tables, other) == JobAt(s.tables, other);
    hide LeaseJob;
  }

  lemma LeasedRowsOk(s: State, event: EventId, id: Id, now: int)
    requires Safe(s) && event !in s.tables.claims && Claimable(s.tables, id, now)
    ensures Rows(With(s, LeaseJob(s.tables, event, id, now)))
  {
    var t := With(s, LeaseJob(s.tables, event, id, now));
    ReleasesAreRows(s);
    hide Safe, RowOk, Waits;
    forall other | other in t.tables.rows
      ensures RowOk(t, other, t.tables.rows[other], JobAt(t.tables, other), Waits(t.tables, other))
    {
      if other == id {
        OwnRowOk(s, event, id, now);
      } else {
        OtherRowOk(s, event, id, now, other);
      }
    }
  }

  lemma LeaseKeepsSafe(s: State, event: EventId, id: Id, now: int)
    requires Safe(s) && event !in s.tables.claims && event in s.worker.wire.claimsSent && Claimable(s.tables, id, now)
    ensures Safe(With(s, LeaseJob(s.tables, event, id, now)))
  {
    LeaseKeepsShape(s, event, id, now);
    LeaseKeepsOnce(s, event, id, now);
    LeasedJobsOk(s, event, id, now);
    LeasedRowsOk(s, event, id, now);
    hide Shape, Leases, Rows, Once;
  }

  lemma OtherClaimKeepsSafe(s: State, event: EventId, given: Given)
    requires Safe(s) && event !in s.tables.claims && event in s.worker.wire.claimsSent && !given.ForPayout?
    ensures Safe(With(s, s.tables.(claims := s.tables.claims[event := given])))
  {
    hide Safe, JobOk, RowOk;
    var g := s.tables.(claims := s.tables.claims[event := given]);
    forall id
      ensures id in g.jobs ==> id in g.rows && JobOk(s, id, g.jobs[id])
      ensures id in g.rows ==> RowOk(s, id, g.rows[id], JobAt(g, id), Waits(g, id))
    {
      OneOk(s, id);
    }
    ReleasesAreRows(s);
    TablesKeepSafe(s, g);
  }

  lemma ClaimKeepsSafe(s: State, event: EventId, choice: Given, now: int)
    requires Safe(s) && event in s.worker.wire.claimsSent
    ensures Safe(With(s, ClaimJob(s.tables, event, choice, now)))
  {
    hide Safe, LeaseJob, Claimable;
    assert With(s, s.tables) == s;
    var u := With(s, ExpireLeases(s.tables, now));
    ExpireKeepsSafe(s, now);
    if event !in s.tables.claims {
      if choice.ForPayout? && Claimable(u.tables, choice.id, now) {
        LeaseKeepsSafe(u, event, choice.id, now);
      } else {
        OtherClaimKeepsSafe(u, event, if choice.ForPayout? then Nothing else choice);
      }
    }
  }

  lemma GatewayKeepsSafe(s: State, e: GatewayEvent, now: int)
    requires Safe(s) && GatewayEnabled(s, e)
    ensures Safe(With(s, ApplyGateway(s, e, now)))
  {
    hide Safe, RequestWithdrawal, LandRelease, GiveUpRelease, RetryRelease, HoldWithdrawal, ApproveWithdrawal,
      RejectWithdrawal, ClaimJob, HandleResult,
      ExpireLeases, WakeFundsQueue, QuarantineBot, ResolveReview, SettleFromBalance, VerdictFor, AllDecided, Imitates;
    match e {
      case Requested(id, payee, amount, approved, short) => RequestKeepsSafe(s, id, payee, amount, approved, short, now);
      case HeldBack(id) => HoldKeepsSafe(s, id);
      case Approved(id, payee, amount, short) => ApproveKeepsSafe(s, id, payee, amount, short, now);
      case ReleaseLanded(id, payee, amount, byReceipt, at) => LandKeepsSafe(s, id, payee, amount, byReceipt, at);
      case ReleaseGivenUp(id, code, shown) => GiveUpKeepsSafe(s, id, code, shown);
      case ReleaseRetried(id) => RetryKeepsSafe(s, id);
      case RejectedByOperator(id) => RejectKeepsSafe(s, id);
      case ClaimArrives(event, choice) => ClaimKeepsSafe(s, event, choice, now);
      case ResultArrives(result) => ResultKeepsSafe(s, result, now);
      case MaintenanceRuns => ExpireKeepsSafe(s, now);
      case FundsArrive => WakeKeepsSafe(s, now);
      case BotQuarantined => QuarantineKeepsSafe(s);
      case ReviewResolved(id, paid) => ResolveReviewKeepsSafe(s, id, paid);
      case BalanceJudged(id, tracked, drift) => BalanceJudgedKeepsSafe(s, id, tracked, drift);
    }
  }

  // The server.

  lemma MoneyAfterDecision(s: State, sent: nat, fate: Fate)
    requires sent < |s.fates| && s.fates[sent].Undecided?
    ensures var t := s.(fates := s.fates[sent := fate]);
            && (forall id :: Clear(s, id) ==> Clear(t, id))
            && (forall id, i :: ClearBut(s, id, i) ==> ClearBut(t, id, i))
            && (forall id :: HasMoved(s, id) ==> HasMoved(t, id))
            && (forall i :: IsPay(s, i) <==> IsPay(t, i))
            && (forall i, id :: IsPayFor(s, i, id) <==> IsPayFor(t, i, id))
  {
    var t := s.(fates := s.fates[sent := fate]);
    assert forall i, id :: IsPayFor(s, i, id) <==> IsPayFor(t, i, id);
    assert forall i | 0 <= i < |s.fates| :: !s.fates[i].Undecided? ==> t.fates[i] == s.fates[i];
  }

  lemma ServerKeepsSafe(s: State, sent: nat, fate: Fate)
    requires Safe(s) && sent < |s.fates| && s.fates[sent].Undecided?
    ensures Safe(s.(fates := s.fates[sent := fate]))
  {
    var t := s.(fates := s.fates[sent := fate]);
    MoneyAfterDecision(s, sent, fate);
    assert Shape(t) by {
      hide Leases, Rows, Once, JobOk, RowOk, Clear, ClearBut, HasMoved;
    }
    assert Once(t) by {
      hide Shape, Leases, Rows, JobOk, RowOk, Clear, ClearBut, HasMoved, LiveLease;
      assert forall i | 0 <= i < |s.fates| :: !s.fates[i].Undecided? ==> t.fates[i] == s.fates[i];
    }
    assert LiveLease(t) == LiveLease(s);
    hide Shape, Once, Clear, ClearBut, HasMoved, LiveLease, JobOk, RowOk;
    JobsCarry(s, t);
    RowsCarry(s, t);
  }
}
