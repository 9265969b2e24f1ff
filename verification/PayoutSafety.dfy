/**
 * What holds in every run of worker, gateway and server, whatever order their events come in.
 */
module PayoutSafety {
  import opened BalanceEvidence
  import opened Gateway
  import opened Options
  import opened PayoutEvidence
  import opened PayoutGatewaySteps
  import opened PayoutInvariant
  import opened PayoutSession
  import opened PayoutSystem
  import opened PayoutWorkerSteps
  import opened WorkerModel

  ghost predicate Sound(s: State) {
    Safe(s) && Session(s.worker) && Proven(s)
  }

  lemma CommandsHaveFates(s: State)
    requires Safe(s)
    ensures |s.fates| == |s.worker.wire.log|
  {
    hide Leases, Rows, Once;
  }

  lemma InitiallySound(now: int)
    requires now >= 0
    ensures Sound(Initial(now))
  {
    InitiallySafe(now);
    InitialSession(now);
    hide Safe, Session;
  }

  lemma StepKeepsSound(s: State, e: Event)
    requires Sound(s) && Enabled(s, e)
    ensures Sound(Apply(s, e))
  {
    hide Safe, Session, Proven, ApplyGateway, ApplyWorker, GatewayEnabled, WorkerEnabled, Honest, After;
    match e {
      case AtGateway(event, now) =>
        GatewayKeepsSafe(s, event, now);
        GatewayKeepsProven(s, event, now);
      case AtWorker(did) =>
        CommandsHaveFates(s);
        WorkerKeepsSafe(s, did);
        WorkerKeepsSession(s, did);
        WorkerIsHonest(s, did);
        HonestKeepsProven(s, ApplyWorker(s, did));
        AfterIsWorker(s, ApplyWorker(s, did));
      case AtServer(sent, fate) =>
        ServerKeepsSafe(s, sent, fate);
        ServerKeepsProven(s, sent, fate);
    }
  }

  lemma AfterIsWorker(s: State, w: Worker)
    ensures After(s, w).worker == w
  {
  }

  lemma {:induction false} SoundStays(path: seq<State>, events: seq<Event>, n: nat, m: nat)
    requires IsPath(path, events) && n <= m < |path| && Sound(path[n])
    ensures Sound(path[m])
  {
    hide Sound, Enabled, Apply;
    if n < m {
      SoundStays(path, events, n, m - 1);
      StepKeepsSound(path[m - 1], events[m - 1]);
    }
  }

  lemma EveryStateIsSound(run: seq<State>, events: seq<Event>, n: nat)
    requires IsRun(run, events) && n < |run|
    ensures Sound(run[n])
  {
    hide Sound, IsPath, Initial;
    var now :| now >= 0 && run[0] == Initial(now);
    InitiallySound(now);
    SoundStays(run, events, 0, n);
  }

  lemma EveryStateIsSafe(run: seq<State>, events: seq<Event>, n: nat)
    requires IsRun(run, events) && n < |run|
    ensures Safe(run[n])
  {
    EveryStateIsSound(run, events, n);
    hide Safe, IsRun;
  }

  lemma RunLength(run: seq<State>, events: seq<Event>)
    requires IsRun(run, events)
    ensures |run| == |events| + 1
  {
    hide Enabled, Apply;
  }

  // Money.

  /** Two payments for one withdrawal that both moved money are the same payment. */
  lemma PaidAtMostOnce(run: seq<State>, events: seq<Event>, n: nat, id: Id, i: int, j: int)
    requires IsRun(run, events) && n < |run|
    requires IsPayFor(run[n], i, id) && i < |run[n].fates| && run[n].fates[i].Moved?
    requires IsPayFor(run[n], j, id) && j < |run[n].fates| && run[n].fates[j].Moved?
    ensures i == j
  {
    EveryStateIsSound(run, events, n);
    hide Shape, Leases, Rows, Session, Proven, IsRun;
  }

  /** A withdrawal's row: refunded at most once, never both paid and refunded. */
  lemma PaidOrRefundedOnce(run: seq<State>, events: seq<Event>, n: nat, id: Id)
    requires IsRun(run, events) && n < |run| && id in run[n].tables.rows
    ensures var row := run[n].tables.rows[id];
            && |row.refunds| <= 1
            && (|row.refunds| == 1 <==> row.status in {Refunded, Rejected})
            && (row.status == Paid <==> row.paidBy.Some?)
  {
    EveryStateIsSound(run, events, n);
    assert RowOk(run[n], id, run[n].tables.rows[id], JobAt(run[n].tables, id), Waits(run[n].tables, id)) by {
      hide Shape, Leases, Once, Session, Proven, RowOk, IsRun;
    }
    hide IsRun, Sound, OutOfReach, Parked, HasMoved;
  }

  // What stays.

  /**
   * Refunds stay, a settled withdrawal stays as it is, a job that is dead stays dead, and one parked behind a
   * settled withdrawal stays parked.
   */
  ghost predicate SettlesOne(g: Tables, h: Tables, id: Id) {
    && (id in g.rows ==>
          && id in h.rows && (forall code | code in g.rows[id].refunds :: code in h.rows[id].refunds)
          && (g.rows[id].Settled() ==> h.rows[id] == g.rows[id] && (Parked(JobAt(g, id)) ==> Parked(JobAt(h, id)))))
    && (id in g.jobs && Dead(g.jobs[id]) ==> id in h.jobs && Dead(h.jobs[id]))
  }

  ghost predicate Settles(g: Tables, h: Tables) {
    forall id :: SettlesOne(g, h, id)
  }

  lemma RequestsSettle(g: Tables, id: Id, payee: Name, amount: string, approved: bool, short: bool, now: int)
    ensures Settles(g, RequestWithdrawal(g, id, payee, amount, approved, short, now))
  {
  }

  lemma ApprovalsSettle(g: Tables, id: Id, payee: Name, amount: string, short: bool, now: int)
    ensures Settles(g, ApproveWithdrawal(g, id, payee, amount, short, now))
  {
  }

  lemma HoldsSettle(g: Tables, id: Id)
    ensures Settles(g, HoldWithdrawal(g, id)) && Settles(g, RejectWithdrawal(g, id))
  {
  }

  lemma ReleasesSettle(g: Tables, id: Id, payee: Name, amount: string, flag: bool, at: int, code: Code)
    ensures Settles(g, LandRelease(g, id, payee, amount, flag, at)) && Settles(g, GiveUpRelease(g, id, code, flag))
    ensures Settles(g, RetryRelease(g, id))
  {
  }

  lemma ReviewsSettle(g: Tables, id: Id, flag: bool, verdict: Verdict)
    ensures Settles(g, ResolveReview(g, id, flag)) && Settles(g, Gateway.SettleFromBalance(g, id, verdict))
  {
  }

  lemma QuarantineSettles(g: Tables)
    ensures Settles(g, QuarantineBot(g))
  {
  }

  lemma SweepsSettle(g: Tables, now: int)
    ensures Settles(g, ExpireLeases(g, now)) && Settles(g, WakeFundsQueue(g, now))
  {
  }

  lemma ClaimsSettle(g: Tables, event: EventId, choice: Given, now: int)
    ensures Settles(g, ClaimJob(g, event, choice, now))
  {
    SweepsSettle(g, now);
    hide ExpireLeases;
    forall id
      ensures SettlesOne(g, ClaimJob(g, event, choice, now), id)
    {
      assert SettlesOne(g, ExpireLeases(g, now), id);
    }
  }

  /** A result reopens a job only while its lease is good; a dead job has none. */
  lemma ResultsSettle(g: Tables, r: Result, now: int)
    ensures Settles(g, HandleResult(g, r, now))
  {
    if r.event !in g.journal && r.job.Withdrawal? && r.job.id in g.jobs && r.job.id in g.rows {
      SettledStays(g.jobs[r.job.id], g.rows[r.job.id], r, now);
    }
    hide SettleResult;
  }

  lemma SettledStays(job: Job, row: Row, r: Result, now: int)
    ensures Dead(job) ==> Dead(SettleResult(job, row, r, now).0)
    ensures forall code | code in row.refunds :: code in SettleResult(job, row, r, now).1.refunds
    ensures row.Settled() ==> SettleResult(job, row, r, now).1 == row
    ensures row.Settled() && Parked(Some(job)) ==> Parked(Some(SettleResult(job, row, r, now).0))
  {
  }

  lemma StepSettles(s: State, e: Event)
    requires Enabled(s, e)
    ensures Settles(s.tables, Apply(s, e).tables)
  {
    hide Settles, SettlesOne, RequestWithdrawal, LandRelease, GiveUpRelease, RetryRelease, HoldWithdrawal,
      ApproveWithdrawal, RejectWithdrawal, ClaimJob, HandleResult,
      ExpireLeases, WakeFundsQueue, QuarantineBot, ResolveReview, SettleFromBalance, VerdictFor, AllDecided, Imitates,
      WorkerEnabled, ApplyWorker;
    var g := s.tables;
    match e {
      case AtGateway(event, now) =>
        match event {
          case Requested(id, payee, amount, approved, short) => RequestsSettle(g, id, payee, amount, approved, short,
              now);
          case HeldBack(id) => HoldsSettle(g, id);
          case Approved(id, payee, amount, short) => ApprovalsSettle(g, id, payee, amount, short, now);
          case RejectedByOperator(id) => HoldsSettle(g, id);
          case ReleaseLanded(id, payee, amount, byReceipt, at) =>
            ReleasesSettle(g, id, payee, amount, byReceipt, at, NotSent);
          case ReleaseGivenUp(id, code, shown) => ReleasesSettle(g, id, "", "", shown, 0, code);
          case ReleaseRetried(id) => ReleasesSettle(g, id, "", "", false, 0, NotSent);
          case ClaimArrives(claim, choice) => ClaimsSettle(g, claim, choice, now);
          case ResultArrives(result) => ResultsSettle(g, result, now);
          case MaintenanceRuns => SweepsSettle(g, now);
          case FundsArrive => SweepsSettle(g, now);
          case BotQuarantined => QuarantineSettles(g);
          case ReviewResolved(id, paid) => ReviewsSettle(g, id, paid, Unclear);
          case BalanceJudged(id, tracked, drift) => ReviewsSettle(g, id, false, VerdictFor(s, id, tracked, drift));
        }
      case _ => NothingSettles(g);
    }
  }

  lemma NothingSettles(g: Tables)
    ensures Settles(g, g)
  {
  }

  lemma {:induction false} RefundsStay(run: seq<State>, events: seq<Event>, n: nat, m: nat, id: Id)
    requires IsRun(run, events) && n <= m < |run| && id in run[n].tables.rows
    ensures id in run[m].tables.rows
    ensures forall code | code in run[n].tables.rows[id].refunds :: code in run[m].tables.rows[id].refunds
  {
    hide Enabled, Apply;
    if n < m {
      RefundsStay(run, events, n, m - 1, id);
      StepSettles(run[m - 1], events[m - 1]);
      assert SettlesOne(run[m - 1].tables, run[m].tables, id);
    }
  }

  /** A withdrawal once paid, refunded or rejected never changes again, whatever arrives or is decided after. */
  lemma {:induction false} ClosedStays(path: seq<State>, events: seq<Event>, n: nat, m: nat, id: Id)
    requires IsPath(path, events) && n <= m < |path|
    requires id in path[n].tables.rows && path[n].tables.rows[id].Settled()
    ensures id in path[m].tables.rows && path[m].tables.rows[id] == path[n].tables.rows[id]
  {
    hide Enabled, Apply;
    if n < m {
      ClosedStays(path, events, n, m - 1, id);
      StepSettles(path[m - 1], events[m - 1]);
      assert SettlesOne(path[m - 1].tables, path[m].tables, id);
    }
  }

  /** What the system itself gave back was never paid in game, and never will be. */
  lemma ReturnedMeansNeverPaid(run: seq<State>, events: seq<Event>, n: nat, m: nat, id: Id)
    requires IsRun(run, events) && n <= m < |run| && id in run[n].tables.rows && Returned(run[n].tables.rows[id])
    ensures !HasMoved(run[m], id)
  {
    RefundsStay(run, events, n, m, id);
    assert Returned(run[m].tables.rows[id]);
    EveryStateIsSound(run, events, m);
    hide IsRun, Shape, Leases, Once, Session, Proven, Parked;
    assert RowOk(run[m], id, run[m].tables.rows[id], JobAt(run[m].tables, id), Waits(run[m].tables, id));
  }
}
