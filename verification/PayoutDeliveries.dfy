/** Messages between worker and gateway that come late, come again, or are the last of their kind. */
module PayoutDeliveries {
  import opened BalanceEvidence
  import opened Gateway
  import opened Options
  import opened PayoutAttempts
  import opened PayoutDoubt
  import opened PayoutEndings
  import opened PayoutGatewaySteps
  import opened PayoutInvariant
  import opened PayoutReviews
  import opened PayoutSafety
  import opened PayoutSystem
  import opened PayoutWaits
  import opened WorkerModel

  // Again.

  /** Results taken stay taken, and a claim that was answered keeps its answer. */
  predicate Remembers(g: Tables, h: Tables) {
    && g.journal <= h.journal
    && forall event | event in g.claims :: event in h.claims && h.claims[event] == g.claims[event]
  }

  lemma ClaimsRemember(g: Tables, event: EventId, choice: Given, now: int)
    ensures Remembers(g, ClaimJob(g, event, choice, now))
  {
  }

  lemma StepRemembers(s: State, e: Event)
    requires Enabled(s, e)
    ensures Remembers(s.tables, Apply(s, e).tables)
  {
    hide RequestWithdrawal, LandRelease, GiveUpRelease, RetryRelease, HoldWithdrawal, ApproveWithdrawal, RejectWithdrawal,
      ClaimJob, HandleResult, ExpireLeases, WakeFundsQueue, QuarantineBot, ResolveReview, SettleFromBalance, VerdictFor,
      AllDecided, Imitates, WorkerEnabled, ApplyWorker, GatewayEnabled, ApplyGateway;
    match e {
      case AtGateway(event, now) =>
        JournalGrows(s, event, now);
        ClaimsKept(s, event, now);
      case _ =>
    }
  }

  lemma ClaimsKept(s: State, e: GatewayEvent, now: int)
    requires GatewayEnabled(s, e)
    ensures forall event | event in s.tables.claims ::
              && event in ApplyGateway(s, e, now).claims
              && ApplyGateway(s, e, now).claims[event] == s.tables.claims[event]
  {
    hide VerdictFor, AllDecided, Imitates, ClaimJob;
    match e {
      case ClaimArrives(event, choice) => ClaimsRemember(s.tables, event, choice, now);
      case _ => ClaimsStay(s, e, now);
    }
  }

  lemma {:induction false} PathRemembers(path: seq<State>, events: seq<Event>, n: nat, m: nat)
    requires IsPath(path, events) && n <= m < |path|
    ensures Remembers(path[n].tables, path[m].tables)
  {
    hide Enabled, Apply;
    if n < m {
      PathRemembers(path, events, n, m - 1);
      StepRemembers(path[m - 1], events[m - 1]);
    }
  }

  lemma PathStep(path: seq<State>, events: seq<Event>, n: nat, e: GatewayEvent, now: int)
    requires IsPath(path, events) && n < |events| && events[n] == AtGateway(e, now)
    ensures |path| == |events| + 1 && path[n + 1] == With(path[n], ApplyGateway(path[n], e, now))
  {
    hide ApplyGateway, GatewayEnabled;
  }

  lemma TakenOnce(s: State, r: Result, now: int)
    ensures r.event in ApplyGateway(s, ResultArrives(r), now).journal
    ensures r.event in s.tables.journal ==> ApplyGateway(s, ResultArrives(r), now) == s.tables
  {
    hide SettleResult;
  }

  /** A result event that has arrived changes nothing when it arrives again, whatever happened in between. */
  lemma ResultsCountOnce(path: seq<State>, events: seq<Event>, n: nat, m: nat, r: Result, now: int, later: int)
    requires IsPath(path, events) && n < m < |events|
    requires events[n] == AtGateway(ResultArrives(r), now) && events[m] == AtGateway(ResultArrives(r), later)
    ensures |path| == |events| + 1 && path[m + 1] == path[m]
  {
    hide IsPath, ApplyGateway;
    PathStep(path, events, n, ResultArrives(r), now);
    PathStep(path, events, m, ResultArrives(r), later);
    TakenOnce(path[n], r, now);
    TakenOnce(path[m], r, later);
    PathRemembers(path, events, n + 1, m);
  }

  lemma AnsweredOnce(s: State, event: EventId, choice: Given, now: int)
    ensures event in ApplyGateway(s, ClaimArrives(event, choice), now).claims
    ensures event in s.tables.claims ==> ApplyGateway(s, ClaimArrives(event, choice), now) == s.tables
  {
    hide ExpireLeases;
  }

  /**
   * A claim asked again under its event changes nothing and gets the first answer, whatever the gateway would
   * choose by then: a claim whose answer was lost is not a second lease.
   */
  lemma ClaimsCountOnce(
      path: seq<State>, events: seq<Event>, n: nat, m: nat, claim: EventId, choice: Given, other: Given, now: int,
      later: int)
    requires IsPath(path, events) && n < m < |events|
    requires events[n] == AtGateway(ClaimArrives(claim, choice), now)
    requires events[m] == AtGateway(ClaimArrives(claim, other), later)
    ensures |path| == |events| + 1 && path[m + 1] == path[m]
    ensures claim in path[n + 1].tables.claims && claim in path[m].tables.claims
            && path[m].tables.claims[claim] == path[n + 1].tables.claims[claim]
  {
    hide IsPath, ApplyGateway;
    PathStep(path, events, n, ClaimArrives(claim, choice), now);
    PathStep(path, events, m, ClaimArrives(claim, other), later);
    AnsweredOnce(path[n], claim, choice, now);
    AnsweredOnce(path[m], claim, other, later);
    PathRemembers(path, events, n + 1, m);
  }

  // Late.

  /** A confirmation finds its lease as it was given out, or run out with nobody having decided since. */
  predicate AwaitsResult(job: Job, row: Row, token: EventId) {
    && job.token == Some(token)
    && ((job.status == Leased && row.Open())
       || (job.status == DeadLetter && job.lastError == Some(LeaseExpired)
          && (row.Open() || (row.status == ManualReview && row.error == Some(LeaseExpired)))))
  }

  lemma ConfirmationSettles(job: Job, row: Row, r: Result, now: int)
    requires r.outcome == Completed && AwaitsResult(job, row, r.token)
    ensures var (after, settled) := SettleResult(job, row, r, now);
            after.status == Done && settled == row.(status := Paid, error := None, paidBy := Some(FromReceipt))
  {
  }

  lemma ResultSettles(s: State, r: Result, now: int, id: Id)
    requires r.job == Withdrawal(id) && r.event !in s.tables.journal && id in s.tables.jobs && id in s.tables.rows
    ensures var (job, row) := SettleResult(s.tables.jobs[id], s.tables.rows[id], r, now);
            var g := ApplyGateway(s, ResultArrives(r), now);
            id in g.jobs && id in g.rows && g.jobs[id] == job && g.rows[id] == row && g.claims == s.tables.claims
  {
    hide SettleResult;
  }

  lemma DoubtHasNoAttempt(s: State, k: nat, id: Id)
    requires Settling(s) && Doubts(s, k, id)
    ensures !Live(s, id) && id in s.tables.jobs && id in s.tables.rows
  {
    assert DoubtOk(s, k, id);
    hide Live;
  }

  lemma NoAttemptStays(s: State, g: Tables, id: Id)
    requires !Live(s, id) && g.claims == s.tables.claims
    ensures !CanWrite(With(s, g), id)
  {
    hide Able;
  }

  /**
   * A confirmation pays its withdrawal however late it arrives, in time or after the lease ran out: from then on
   * the withdrawal stays paid on that receipt, and no continuation writes another /pay for it.
   */
  lemma ConfirmationLands(run: seq<State>, events: seq<Event>, n: nat, m: nat, k: nat, id: Id, now: int)
    requires IsRun(run, events) && n < m < |run| && k < |run[n].worker.wire.posted|
    requires var r := run[n].worker.wire.posted[k];
             && r.job == Withdrawal(id) && r.outcome == Completed && r.event !in run[n].tables.journal
             && events[n] == AtGateway(ResultArrives(r), now)
             && id in run[n].tables.jobs && id in run[n].tables.rows
             && AwaitsResult(run[n].tables.jobs[id], run[n].tables.rows[id], r.token)
    ensures id in run[m].tables.rows && run[m].tables.rows[id]
         == run[n].tables.rows[id].(status := Paid, error := None, paidBy := Some(FromReceipt))
    ensures !MayYetWrite(run[n + 1], |run[n + 1].worker.wire.log|, id)
  {
    hide IsPath, Sound, Settling, ApplyGateway, SettleResult, MayYetWrite, CanWrite, AwaitsResult, Live;
    var s, r := run[n], run[n].worker.wire.posted[k];
    RunLength(run, events);
    EveryStateSettles(run, events, n);
    EveryStateIsSound(run, events, n + 1);
    assert Doubts(s, k, id);
    DoubtHasNoAttempt(s, k, id);
    PathStep(run, events, n, ResultArrives(r), now);
    ResultSettles(s, r, now, id);
    ConfirmationSettles(s.tables.jobs[id], s.tables.rows[id], r, now);
    NoAttemptStays(s, run[n + 1].tables, id);
    WritesAgainExactly(run[n + 1], id);
    ClosedStays(run, events, n + 1, m, id);
  }

  // For the last time.

  function GivenBack(row: Row): Row {
    row.(status := Refunded, error := Some(NotSent), refunds := row.refunds + [NotSent])
  }

  lemma FifthFailureSettles(job: Job, row: Row, r: Result, now: int)
    requires r.outcome == Failed(true, NotSent) && ValidLease(job, r, now) && row.Open() && job.attempts <= MAX_ATTEMPTS
    ensures var (after, settled) := SettleResult(job, row, r, now);
            if job.attempts == MAX_ATTEMPTS
            then Dead(after) && settled == GivenBack(row)
            else after.status == Queued && settled == row.(status := InQueue, error := Some(NotSent))
                 && after.available == At(now + job.attempts * job.attempts * 1000)
  {
    assert job.attempts in {0, 1, 2, 3, 4, 5};
  }

  /**
   * A payout that could not be sent goes back into the queue with a growing delay until its fifth attempt. The
   * fifth failure gives the money back for good: the row stays refunded and no continuation moves money in game.
   */
  lemma FifthFailureEnds(run: seq<State>, events: seq<Event>, n: nat, m: nat, r: Result, id: Id, now: int)
    requires IsRun(run, events) && n < m < |run| && events[n] == AtGateway(ResultArrives(r), now)
    requires r.job == Withdrawal(id) && r.outcome == Failed(true, NotSent) && r.event !in run[n].tables.journal
    requires id in run[n].tables.jobs && id in run[n].tables.rows && run[n].tables.rows[id].Open()
    requires ValidLease(run[n].tables.jobs[id], r, now)
    ensures var job, row := run[n].tables.jobs[id], run[n].tables.rows[id];
            if job.attempts == MAX_ATTEMPTS
            then
              && id in run[m].tables.rows && NeverMoves(run[n + 1], id)
              && run[m].tables.rows[id] == GivenBack(row)
            else
              && id in run[n + 1].tables.jobs && run[n + 1].tables.jobs[id].status == Queued
              && run[n + 1].tables.jobs[id].available == At(now + job.attempts * job.attempts * 1000)
              && id in run[n + 1].tables.rows
              && run[n + 1].tables.rows[id] == row.(status := InQueue, error := Some(NotSent))
  {
    hide IsPath, Sound, ApplyGateway, SettleResult, NeverMoves, ValidLease, Bounded;
    var s := run[n];
    RunLength(run, events);
    AttemptsAreBounded(run, events, n);
    BoundedOne(s.tables, id);
    PathStep(run, events, n, ResultArrives(r), now);
    ResultSettles(s, r, now, id);
    FifthFailureSettles(s.tables.jobs[id], s.tables.rows[id], r, now);
    if s.tables.jobs[id].attempts == MAX_ATTEMPTS {
      EveryStateIsSound(run, events, n + 1);
      assert NotSent in run[n + 1].tables.rows[id].refunds;
      ReturnedNeverMoves(run[n + 1], id);
      ClosedStays(run, events, n + 1, m, id);
    }
  }

  lemma BoundedOne(g: Tables, id: Id)
    requires Bounded(g) && id in g.jobs
    ensures g.jobs[id].attempts <= MAX_ATTEMPTS
  {
  }
}
