/** How often a payout is tried: never more than five leases in a row without an answer from the server. */
module PayoutAttempts {
  import opened BalanceEvidence
  import opened Gateway
  import opened Options
  import opened PayoutSystem
  import opened WorkerModel

  predicate Bounded(g: Tables) {
    forall id | id in g.jobs :: g.jobs[id].attempts <= MAX_ATTEMPTS
  }

  lemma RequestsKeepBounded(g: Tables, id: Id, payee: Name, amount: string, approved: bool, short: bool, now: int)
    requires Bounded(g)
    ensures Bounded(RequestWithdrawal(g, id, payee, amount, approved, short, now))
    ensures Bounded(ApproveWithdrawal(g, id, payee, amount, short, now))
  {
  }

  lemma ReleasesKeepBounded(g: Tables, id: Id, payee: Name, amount: string, flag: bool, at: int, code: Code)
    requires Bounded(g)
    ensures Bounded(LandRelease(g, id, payee, amount, flag, at)) && Bounded(GiveUpRelease(g, id, code, flag))
    ensures Bounded(RetryRelease(g, id))
  {
  }

  lemma PeopleKeepBounded(g: Tables, id: Id, flag: bool, verdict: Verdict)
    requires Bounded(g)
    ensures Bounded(HoldWithdrawal(g, id)) && Bounded(RejectWithdrawal(g, id)) && Bounded(ResolveReview(g, id, flag))
    ensures Bounded(Gateway.SettleFromBalance(g, id, verdict)) && Bounded(QuarantineBot(g))
  {
  }

  lemma SweepsKeepBounded(g: Tables, now: int)
    requires Bounded(g)
    ensures Bounded(ExpireLeases(g, now)) && Bounded(WakeFundsQueue(g, now))
  {
  }

  /** Only a job with an attempt left is handed out. */
  lemma ClaimsKeepBounded(g: Tables, event: EventId, choice: Given, now: int)
    requires Bounded(g)
    ensures Bounded(ClaimJob(g, event, choice, now))
  {
    SweepsKeepBounded(g, now);
    hide ExpireLeases;
  }

  lemma ResultsKeepBounded(g: Tables, r: Result, now: int)
    requires Bounded(g)
    ensures Bounded(HandleResult(g, r, now))
  {
    if r.event !in g.journal && r.job.Withdrawal? && r.job.id in g.jobs && r.job.id in g.rows {
      SettlingAddsNoAttempt(g.jobs[r.job.id], g.rows[r.job.id], r, now);
    }
    hide SettleResult;
  }

  lemma SettlingAddsNoAttempt(job: Job, row: Row, r: Result, now: int)
    ensures SettleResult(job, row, r, now).0.attempts <= job.attempts
  {
  }

  lemma StepKeepsBounded(s: State, e: Event)
    requires Bounded(s.tables) && Enabled(s, e)
    ensures Bounded(Apply(s, e).tables)
  {
    hide Bounded, RequestWithdrawal, LandRelease, GiveUpRelease, RetryRelease, HoldWithdrawal, ApproveWithdrawal,
      RejectWithdrawal, ClaimJob, HandleResult,
      ExpireLeases, WakeFundsQueue, QuarantineBot, ResolveReview, SettleFromBalance, VerdictFor, AllDecided, Imitates,
      WorkerEnabled, ApplyWorker;
    var g := s.tables;
    match e {
      case AtGateway(event, now) =>
        match event {
          case Requested(id, payee, amount, approved, short) =>
            RequestsKeepBounded(g, id, payee, amount, approved, short, now);
          case HeldBack(id) => PeopleKeepBounded(g, id, false, Unclear);
          case Approved(id, payee, amount, short) => RequestsKeepBounded(g, id, payee, amount, false, short, now);
          case RejectedByOperator(id) => PeopleKeepBounded(g, id, false, Unclear);
          case ReleaseLanded(id, payee, amount, byReceipt, at) =>
            ReleasesKeepBounded(g, id, payee, amount, byReceipt, at, NotSent);
          case ReleaseGivenUp(id, code, shown) => ReleasesKeepBounded(g, id, "", "", shown, 0, code);
          case ReleaseRetried(id) => ReleasesKeepBounded(g, id, "", "", false, 0, NotSent);
          case ClaimArrives(claim, choice) => ClaimsKeepBounded(g, claim, choice, now);
          case ResultArrives(result) => ResultsKeepBounded(g, result, now);
          case MaintenanceRuns => SweepsKeepBounded(g, now);
          case FundsArrive => SweepsKeepBounded(g, now);
          case BotQuarantined => PeopleKeepBounded(g, 0, false, Unclear);
          case ReviewResolved(id, paid) => PeopleKeepBounded(g, id, paid, Unclear);
          case BalanceJudged(id, tracked, drift) => PeopleKeepBounded(g, id, false, VerdictFor(s, id, tracked, drift));
        }
      case _ =>
    }
  }

  /** In every run no payout has used more than its five attempts. */
  lemma {:induction false} AttemptsAreBounded(run: seq<State>, events: seq<Event>, n: nat)
    requires IsRun(run, events) && n < |run|
    ensures Bounded(run[n].tables)
  {
    hide Enabled, Apply;
    if n > 0 {
      AttemptsAreBounded(run, events, n - 1);
      StepKeepsBounded(run[n - 1], events[n - 1]);
    }
  }
}
