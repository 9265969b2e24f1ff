/**
 * Concrete runs. One in which a payout succeeds, for any payee, amount and matching receipt: what the
 * environment is trusted for leaves room for the ordinary course of things. And two in which a promise ends.
 */
module PayoutExample {
  import opened Gateway
  import opened MoneyReading
  import opened Options
  import opened PayoutSession
  import opened PayoutSystem
  import opened WorkerModel

  ghost predicate Reached(s: State) {
    exists run, events :: IsRun(run, events) && run[|events|] == s
  }

  lemma InitialIsReached()
    ensures Reached(Initial(0))
  {
    var run, events: seq<Event> := [Initial(0)], [];
    assert run[0] == Initial(0);
    assert IsRun(run, events) && run[|events|] == Initial(0);
  }

  lemma StepIsReached(s: State, e: Event)
    requires Reached(s) && Enabled(s, e)
    ensures Reached(Apply(s, e))
  {
    hide Enabled, Apply;
    var run, events :| IsRun(run, events) && run[|events|] == s;
    var longer, more := run + [Apply(s, e)], events + [e];
    forall i | 0 <= i < |more|
      ensures Enabled(longer[i], more[i]) && longer[i + 1] == Apply(longer[i], more[i])
    {
      if i < |events| {
        assert longer[i] == run[i] && longer[i + 1] == run[i + 1] && more[i] == events[i];
      }
    }
    assert longer[0] == run[0];
    assert IsRun(longer, more) && longer[|more|] == Apply(s, e);
  }

  // The worker, step by step.

  function LoggedIn(): Worker {
    NewWorker(0).(link := Link(Some(0), false, false, 1, 0, false, false))
  }

  function Spawned(): Worker {
    TeleportSettled(Spawn(LoggedIn(), BALANCE_IDLE_MIN_MS))
  }

  function Ready(): Worker {
    Worker(0, false, false, Link(Some(0), true, false, 1, 0, false, false),
           Watch(false, 0, 0, 0, 0, {Probe(0, 0, 0)}, None, Some(BALANCE_IDLE_MIN_MS)),
           Desk(false, false, false, None, map[], Idle), Wire(0, [Sent(Bal(false), 0, 0, 0)], [], [], [0], 0, 1))
  }

  lemma GetsSpawned()
    ensures OpenConnection(NewWorker(0)) == LoggedIn()
    ensures var w := Spawned();
            w == Ready().(watch := Watch(true, 0, 0, 0, 0, {}, Some(0), Some(BALANCE_IDLE_MIN_MS)),
                          wire := Wire(0, [], [], [], [], 0, 0))
  {
  }

  lemma GetsReady()
    ensures SeeBalance(BalanceTimer(Spawned())) == Ready()
    ensures |BalanceTimer(Spawned()).wire.log| == 1 && BalanceTimer(Spawned()).link.conn.Some?
  {
    GetsSpawned();
    var sent := Sent(Bal(false), 0, 0, 0);
    assert [] + [sent] == [sent] && {} + {Probe(0, 0, 0)} == {Probe(0, 0, 0)};
    assert BalanceTimer(Spawned()) == Ready().(
      watch := Watch(true, 0, 0, 5_000, 0, {Probe(0, 0, 0)}, None, Some(BALANCE_IDLE_MIN_MS)),
      wire := Wire(0, [sent], [], [], [], 0, 1));
    var none: seq<int> := [];
    assert none + [0] == [0];
  }

  function Asking(): Worker {
    Ready().(desk := Desk(true, false, false, None, map[], Claiming(1, 0)),
             wire := Ready().wire.(nextId := 2, claimsSent := [1]))
  }

  function Waiting(job: Claimed): Worker {
    Asking().(desk := Desk(true, true, false, None, map[], Gap(job, 0, 1_500)),
              watch := Ready().watch.(balanceTimer := Some(12_000)))
  }

  function Log(job: Claimed): seq<Sent> {
    [Sent(Bal(false), 0, 0, 0), Sent(Pay(job, 0), 0, 1_500, 0)]
  }

  function Paying(job: Claimed): Worker {
    Waiting(job).(now := 1_500, desk := Desk(true, false, false, Some(Pending(2, job.payee, 1)), map[2 := 9_500],
                                             InFlight(job, 2, 1)),
                  wire := Wire(1_500, Log(job), [], [1], [0], 0, 3))
  }

  /** The write threw: the job is reported, and the entry is still armed. */
  function Thrown(job: Claimed): Worker {
    Paying(job).(desk := Paying(job).desk.(phase := Reporting(false)),
                 wire := Wire(1_500, Log(job), [Result(3, job.ref, job.token, Failed(false, PayoutFailed))], [1], [0],
                   0, 4))
  }

  lemma Asks()
    ensures PollJobs(Ready(), true) == Asking()
  {
    assert Ready().wire.claimsSent + [1] == [1];
  }

  lemma WaitsForTheGap(job: Claimed)
    ensures StartPayout(Asking(), job) == Waiting(job)
  {
  }

  lemma Pays(job: Claimed)
    ensures SendPayout(Tick(Waiting(job), 1_500), false) == Paying(job)
    ensures SendPayout(Tick(Waiting(job), 1_500), true) == Thrown(job)
  {
    var w := Tick(Waiting(job), 1_500);
    assert w.wire.log + [Sent(Pay(job, 0), 0, 1_500, 0)] == Log(job);
    assert w.desk.payTimers[2 := 9_500] == map[2 := 9_500];
    assert SendPayout(w, false) == WritePayout(w);
    assert Paying(job).wire.posted + [Result(3, job.ref, job.token,
           Failed(false, PayoutFailed))] == Thrown(job).wire.posted;
  }

  function Confirmed(job: Claimed): Worker {
    Paying(job).(desk := Desk(true, false, false, None, map[], Reporting(false)),
                 wire := Wire(1_500, Log(job), [Result(3, job.ref, job.token, Completed)], [1], [0], 0, 4))
  }

  lemma IsConfirmed(job: Claimed, displayed: string)
    requires IsAmountText(job.amount) && CoversRequestedAmount(displayed, job.amount)
    ensures SeeReceipt(Paying(job), job.payee, displayed) == Confirmed(job)
  {
    hide IsAmountText, CoversRequestedAmount;
    var w := Paying(job);
    var u := Disarmed(w, 2);
    assert w.desk.payTimers - {2} == map[];
    assert SeeReceipt(w, job.payee, displayed) == Conclude(u, job, Receipt(displayed));
    assert Conclusion(job, Receipt(displayed), false) == Completed;
    assert u.wire.posted + [Result(3, job.ref, job.token, Completed)] == Confirmed(job).wire.posted;
  }

  // The gateway, step by step.

  function Empty(): Tables {
    Tables(map[], map[], map[], map[], {})
  }

  function Requested(payee: Name, amount: string): Tables {
    Empty().(jobs := map[1 := NewJob(payee, amount, 0)], rows := map[1 := Row(InQueue, None, [], None)])
  }

  function Leased(payee: Name, amount: string): Tables {
    Empty().(jobs := map[1 := Job(payee, amount, JobStatus.Leased, 1, Some(1), LEASE_MS, At(0), None)],
             rows := map[1 := Row(Processing, None, [], None)], claims := map[1 := ForPayout(1)])
  }

  function Settled(payee: Name, amount: string): Tables {
    Empty().(jobs := map[1 := Job(payee, amount, Done, 1, None, LEASE_MS, At(0), None)],
             rows := map[1 := Row(RowStatus.Paid, None, [], Some(FromReceipt))], claims := map[1 := ForPayout(1)],
               journal := {3})
  }

  lemma GatewaySteps(payee: Name, amount: string)
    ensures RequestWithdrawal(Empty(), 1, payee, amount, true, false, 0) == Requested(payee, amount)
    ensures ClaimJob(Requested(payee, amount), 1, ForPayout(1), 0) == Leased(payee, amount)
    ensures HandleResult(Leased(payee, amount), Result(3, Withdrawal(1), 1, Completed), 0) == Settled(payee, amount)
  {
    var g := Requested(payee, amount);
    assert ExpireLeases(g, 0) == g;
    assert Claimable(g, 1, 0);
    assert LeaseJob(g, 1, 1, 0) == Leased(payee, amount);
  }

  // The run.

  function Job1(payee: Name, amount: string): Claimed {
    Claimed(Withdrawal(1), 1, payee, amount)
  }

  lemma StepTo(s: State, e: Event, t: State)
    requires Reached(s) && Enabled(s, e) && Apply(s, e) == t
    ensures Reached(t)
  {
    StepIsReached(s, e);
  }

  lemma GatewayReaches(g: Tables, h: Tables, w: Worker, fates: seq<Fate>, e: GatewayEvent, now: int)
    requires Reached(State(g, w, fates)) && GatewayEnabled(State(g, w, fates), e)
    requires ApplyGateway(State(g, w, fates), e, now) == h
    ensures Reached(State(h, w, fates))
  {
    hide GatewayEnabled, ApplyGateway;
    StepTo(State(g, w, fates), AtGateway(e, now), State(h, w, fates));
  }

  lemma WorkerReaches(g: Tables, w: Worker, v: Worker, fates: seq<Fate>, e: WorkerEvent, more: seq<Fate>)
    requires Reached(State(g, w, fates)) && WorkerEnabled(State(g, w, fates), e)
    requires ApplyWorker(State(g, w, fates), e) == v && Extended(fates, |v.wire.log|) == more
    ensures Reached(State(g, v, more))
  {
    hide WorkerEnabled, ApplyWorker, Extended;
    StepTo(State(g, w, fates), AtWorker(e), State(g, v, more));
  }

  lemma ReachesLogin(g: Tables)
    requires Reached(State(g, NewWorker(0), []))
    ensures Reached(State(g, LoggedIn(), []))
  {
    hide Reached;
    GetsSpawned();
    WorkerReaches(g, NewWorker(0), LoggedIn(), [], LoginStarts, []);
  }

  lemma ReachesSpawned(g: Tables)
    requires Reached(State(g, LoggedIn(), []))
    ensures Reached(State(g, Spawned(), []))
  {
    hide Reached;
    var w := LoggedIn();
    var spawned := Spawn(w, BALANCE_IDLE_MIN_MS);
    WorkerReaches(g, w, spawned, [], Spawns(BALANCE_IDLE_MIN_MS), []);
    WorkerReaches(g, spawned, Spawned(), [], RtpSettled, []);
  }

  lemma ReachesAnswered(g: Tables)
    requires Reached(State(g, Spawned(), []))
    ensures Reached(State(g, Ready(), [Undecided]))
  {
    hide Reached;
    GetsReady();
    GetsSpawned();
    var asked := BalanceTimer(Spawned());
    assert Extended([], 1) == [Undecided];
    hide Spawned, BalanceTimer, Ready;
    WorkerReaches(g, Spawned(), asked, [], BalanceDue, [Undecided]);
    WorkerReaches(g, asked, Ready(), [Undecided], BalanceSeen, [Undecided]);
  }

  lemma ReachesReady(payee: Name, amount: string)
    ensures Reached(State(Requested(payee, amount), Ready(), [Undecided]))
  {
    InitialIsReached();
    assert Initial(0) == State(Empty(), NewWorker(0), []);
    GatewaySteps(payee, amount);
    hide Reached, NewWorker, LoggedIn, Spawned, Ready;
    GatewayReaches(Empty(), Requested(payee, amount), NewWorker(0), [],
                   GatewayEvent.Requested(1, payee, amount, true, false), 0);
    ReachesLogin(Requested(payee, amount));
    ReachesSpawned(Requested(payee, amount));
    ReachesAnswered(Requested(payee, amount));
  }

  lemma ReachesAsking(g: Tables, job: Claimed)
    requires Reached(State(g, Ready(), [Undecided]))
    ensures Reached(State(g, Asking(), [Undecided]))
  {
    hide Reached;
    Asks();
    WorkerReaches(g, Ready(), Asking(), [Undecided], Polls(true), [Undecided]);
  }

  lemma ReachesLeased(payee: Name, amount: string)
    requires Reached(State(Requested(payee, amount), Asking(), [Undecided]))
    ensures Reached(State(Leased(payee, amount), Asking(), [Undecided]))
  {
    hide Reached, ClaimJob;
    GatewaySteps(payee, amount);
    GatewayReaches(Requested(payee, amount), Leased(payee, amount), Asking(), [Undecided],
      ClaimArrives(1, ForPayout(1)), 0);
  }

  lemma ReachesWaiting(payee: Name, amount: string)
    requires Reached(State(Leased(payee, amount), Asking(), [Undecided]))
    ensures Reached(State(Leased(payee, amount), Tick(Waiting(Job1(payee, amount)), 1_500), [Undecided]))
  {
    hide Reached, StartPayout;
    var job, h := Job1(payee, amount), Leased(payee, amount);
    WaitsForTheGap(job);
    WorkerReaches(h, Asking(), Waiting(job), [Undecided], ClaimReturns, [Undecided]);
    WorkerReaches(h, Waiting(job), Tick(Waiting(job), 1_500), [Undecided], Ticks(1_500), [Undecided]);
  }

  lemma ReachesWritten(h: Tables, job: Claimed)
    requires Reached(State(h, Tick(Waiting(job), 1_500), [Undecided]))
    ensures Reached(State(h, Paying(job), [Undecided, Undecided]))
  {
    hide Reached, SendPayout;
    Pays(job);
    assert Extended([Undecided], 2) == [Undecided, Undecided];
    WorkerReaches(h, Tick(Waiting(job), 1_500), Paying(job), [Undecided], WaitEnds(false), [Undecided, Undecided]);
  }

  lemma ReachesMoved(h: Tables, job: Claimed, displayed: string)
    requires Reached(State(h, Paying(job), [Undecided, Undecided]))
    ensures Reached(State(h, Paying(job), [Undecided, Moved(displayed)]))
  {
    hide Reached;
    var before, after := [Undecided, Undecided], [Undecided, Moved(displayed)];
    assert before[1 := Moved(displayed)] == after;
    StepTo(State(h, Paying(job), before), AtServer(1, Moved(displayed)), State(h, Paying(job), after));
  }

  lemma ReachesConfirmed(h: Tables, job: Claimed, displayed: string)
    requires IsAmountText(job.amount) && CoversRequestedAmount(displayed, job.amount)
    requires Reached(State(h, Paying(job), [Undecided, Moved(displayed)]))
    ensures Reached(State(h, Confirmed(job), [Undecided, Moved(displayed)]))
  {
    hide Reached, SeeReceipt;
    IsConfirmed(job, displayed);
    hide IsAmountText, CoversRequestedAmount;
    var fates := [Undecided, Moved(displayed)];
    WorkerReaches(h, Paying(job), Confirmed(job), fates, ReceiptSeen(1), fates);
  }

  lemma ReachesSettled(payee: Name, amount: string, fates: seq<Fate>)
    requires Reached(State(Leased(payee, amount), Confirmed(Job1(payee, amount)), fates))
    ensures Reached(State(Settled(payee, amount), Confirmed(Job1(payee, amount)), fates))
  {
    hide Reached, HandleResult;
    GatewaySteps(payee, amount);
    var result := Result(3, Withdrawal(1), 1, Completed);
    assert Confirmed(Job1(payee, amount)).wire.posted == [result];
    GatewayReaches(Leased(payee, amount), Settled(payee, amount), Confirmed(Job1(payee, amount)), fates,
                   ResultArrives(result), 0);
  }

  ghost predicate PaidOnReceipt(s: State, id: Id) {
    id in s.tables.rows && s.tables.rows[id] == Row(RowStatus.Paid, None, [], Some(FromReceipt)) && HasMoved(s, id)
  }

  /** A withdrawal is requested, claimed, paid, confirmed and settled: money moved once and the row says paid. */
  lemma APayoutCanSucceed(payee: Name, amount: string, displayed: string)
    requires IsAmountText(amount) && CoversRequestedAmount(displayed, amount)
    ensures exists run, events :: IsRun(run, events) && PaidOnReceipt(run[|events|], 1)
  {
    var job, fates := Job1(payee, amount), [Undecided, Moved(displayed)];
    var end := State(Settled(payee, amount), Confirmed(job), fates);
    assert IsPayFor(end, 1, 1) && end.fates[1].Moved?;
    assert PaidOnReceipt(end, 1);
    hide IsAmountText, CoversRequestedAmount, Requested, Leased, Settled, LoggedIn, Spawned, Ready, Asking, Waiting,
      Paying,
      Confirmed, PaidOnReceipt, IsRun;
    ReachesReady(payee, amount);
    ReachesAsking(Requested(payee, amount), job);
    ReachesLeased(payee, amount);
    ReachesWaiting(payee, amount);
    ReachesWritten(Leased(payee, amount), job);
    ReachesMoved(Leased(payee, amount), job, displayed);
    ReachesConfirmed(Leased(payee, amount), job, displayed);
    ReachesSettled(payee, amount, fates);
    assert Reached(end);
    var run, events :| IsRun(run, events) && run[|events|] == end;
  }

  // Where a promise ends.

  function Expired(payee: Name, amount: string): Tables {
    Leased(payee, amount).(
      jobs := map[1 := Job(payee, amount, DeadLetter, 1, Some(1), LEASE_MS, At(0), Some(LeaseExpired))],
      rows := map[1 := Row(ManualReview, Some(LeaseExpired), [], None)])
  }

  function GivenBack(payee: Name, amount: string): Tables {
    Leased(payee, amount).(
      jobs := map[1 := Job(payee, amount, Done, 1, None, LEASE_MS, At(0), Some(LeaseExpired))],
      rows := map[1 := Row(Refunded, Some(ConfirmedNotPaid), [ConfirmedNotPaid], None)])
  }

  lemma RefundSteps(payee: Name, amount: string)
    ensures ExpireLeases(Leased(payee, amount), LEASE_MS + 1) == Expired(payee, amount)
    ensures ResolveReview(Expired(payee, amount), 1, false) == GivenBack(payee, amount)
  {
    var none: seq<Code> := [];
    assert none + [ConfirmedNotPaid] == [ConfirmedNotPaid];
    var g, h := ExpireLeases(Leased(payee, amount), LEASE_MS + 1), Expired(payee, amount);
    assert g.jobs == h.jobs && g.rows == h.rows;
    assert ResolveReview(h, 1, false).rows == GivenBack(payee, amount).rows;
    assert ResolveReview(h, 1, false).jobs == GivenBack(payee, amount).jobs;
  }

  lemma ReachesGivenBack(payee: Name, amount: string, w: Worker, fates: seq<Fate>)
    requires Reached(State(Leased(payee, amount), w, fates))
    ensures Reached(State(GivenBack(payee, amount), w, fates))
  {
    hide Reached, ExpireLeases, ResolveReview;
    RefundSteps(payee, amount);
    GatewayReaches(Leased(payee, amount), Expired(payee, amount), w, fates, MaintenanceRuns, LEASE_MS + 1);
    GatewayReaches(Expired(payee, amount), GivenBack(payee, amount), w, fates, ReviewResolved(1, false), 0);
  }

  lemma ReachesPaying(payee: Name, amount: string)
    ensures Reached(State(Leased(payee, amount), Tick(Waiting(Job1(payee, amount)), 1_500), [Undecided]))
    ensures Reached(State(Leased(payee, amount), Paying(Job1(payee, amount)), [Undecided, Undecided]))
  {
    var job := Job1(payee, amount);
    hide Reached, Requested, Leased, LoggedIn, Spawned, Ready, Asking, Waiting, Paying;
    ReachesReady(payee, amount);
    ReachesAsking(Requested(payee, amount), job);
    ReachesLeased(payee, amount);
    ReachesWaiting(payee, amount);
    ReachesWritten(Leased(payee, amount), job);
  }

  /** Refunded by an operator while its /pay was still undecided, a withdrawal can be paid in game as well. */
  lemma ARefundCanMeetAPayment(payee: Name, amount: string, displayed: string)
    ensures exists run, events :: IsRun(run, events) && RefundedAndPaid(run[|events|], 1)
  {
    var w, g := Paying(Job1(payee, amount)), GivenBack(payee, amount);
    var end := State(g, w, [Undecided, Moved(displayed)]);
    assert IsPayFor(end, 1, 1) && end.fates[1].Moved?;
    assert RefundedAndPaid(end, 1);
    hide Requested, Leased, GivenBack, Paying, IsRun, RefundedAndPaid;
    ReachesPaying(payee, amount);
    ReachesGivenBack(payee, amount, w, [Undecided, Undecided]);
    ReachesMoved(g, Job1(payee, amount), displayed);
    assert Reached(end);
    var run, events :| IsRun(run, events) && run[|events|] == end;
  }

  ghost predicate RefundedAndPaid(s: State, id: Id) {
    id in s.tables.rows && s.tables.rows[id].refunds == [ConfirmedNotPaid] && HasMoved(s, id)
  }

  /** Reported, polled again, and on other work, with the thrown write's entry still armed. */
  function Elsewhere(job: Claimed): Worker {
    Thrown(job).(desk := Thrown(job).desk.(phase := OtherJob),
                 wire := Thrown(job).wire.(nextId := 5, claimsSent := [1, 4]))
  }

  function Finds(g: Tables): Tables {
    g.(claims := g.claims[4 := OtherWork])
  }

  function Again(job: Claimed): Worker {
    PollJobs(EndReport(Thrown(job), true), true)
  }

  lemma ElsewhereSteps(job: Claimed)
    ensures Again(job).desk.phase == Claiming(4, 0) && StartOtherJob(Again(job)) == Elsewhere(job)
    ensures 4 in Again(job).wire.claimsSent && |Again(job).wire.log| == 2 && |EndReport(Thrown(job), true).wire.log| == 2
  {
    assert EndReport(Thrown(job), true).wire.claimsSent + [4] == [1, 4];
  }

  lemma ReachesThrown(payee: Name, amount: string)
    ensures Reached(State(Leased(payee, amount), Thrown(Job1(payee, amount)), [Undecided, Undecided]))
  {
    var job, g, fates := Job1(payee, amount), Leased(payee, amount), [Undecided, Undecided];
    Pays(job);
    assert Extended([Undecided], 2) == fates;
    assert |Thrown(job).wire.log| == 2;
    hide Reached, SendPayout, Leased, Thrown;
    ReachesPaying(payee, amount);
    WorkerReaches(g, Tick(Waiting(job), 1_500), Thrown(job), [Undecided], WaitEnds(true), fates);
  }

  lemma ReachesAgain(g: Tables, job: Claimed, fates: seq<Fate>)
    requires Reached(State(g, Thrown(job), fates)) && |fates| == 2
    ensures Reached(State(g, Again(job), fates))
  {
    ElsewhereSteps(job);
    assert Thrown(job).desk.phase.Reporting?;
    hide Reached, Thrown;
    WorkerReaches(g, Thrown(job), EndReport(Thrown(job), true), fates, ReportEnds(true), fates);
    WorkerReaches(g, EndReport(Thrown(job), true), Again(job), fates, Polls(true), fates);
  }

  lemma FindsOtherWork(payee: Name, amount: string)
    ensures ClaimJob(Leased(payee, amount), 4, OtherWork, 0) == Finds(Leased(payee, amount))
  {
    assert ExpireLeases(Leased(payee, amount), 0) == Leased(payee, amount);
  }

  lemma ReachesElsewhere(payee: Name, amount: string)
    ensures Reached(State(Finds(Leased(payee, amount)), Elsewhere(Job1(payee, amount)), [Undecided, Undecided]))
  {
    var job, g, fates := Job1(payee, amount), Leased(payee, amount), [Undecided, Undecided];
    ElsewhereSteps(job);
    hide Reached, Thrown, Again, Elsewhere, Leased, ClaimJob;
    ReachesThrown(payee, amount);
    ReachesAgain(g, job, fates);
    FindsOtherWork(payee, amount);
    GatewayReaches(g, Finds(g), Again(job), fates, ClaimArrives(4, OtherWork), 0);
    WorkerReaches(Finds(g), Again(job), Elsewhere(job), fates, ClaimReturns, fates);
  }

  /** After a write that threw, other work can end with a logout while that write's entry is still armed. */
  lemma ALogoutCanFindAnEntry(payee: Name, amount: string)
    ensures exists s ::
              && Reached(s) && s.worker.desk.pending.Some? && Threw(s.worker) && Enabled(s, AtWorker(OtherWorkEnds(true)))
              && Apply(s, AtWorker(OtherWorkEnds(true))).worker.wire.quits == s.worker.wire.quits + 1
  {
    var job := Job1(payee, amount);
    var s := State(Finds(Leased(payee, amount)), Elsewhere(job), [Undecided, Undecided]);
    ReachesElsewhere(payee, amount);
    assert s.worker.wire.posted[0].outcome == Failed(false, PayoutFailed);
    assert Enabled(s, AtWorker(OtherWorkEnds(true)));
    hide Reached;
  }
}
