/**
 * The attempt that still waits to write its /pay when the withdrawal is decided otherwise: exactly when it
 * can still write it.
 */
module PayoutWaits {
  import opened BalanceEvidence
  import opened Gateway
  import opened Options
  import opened PayoutEndings
  import opened PayoutGatewaySteps
  import opened PayoutInvariant
  import opened PayoutSafety
  import opened PayoutSession
  import opened PayoutSystem
  import opened PayoutWorkerSteps
  import opened WorkerModel

  predicate Waiting(w: Worker) {
    w.desk.phase.Claiming? || w.desk.phase.Gap?
  }

  /**
   * The connection of its claim has not ended, and once the wait before the command has begun, no
   * /bal is due an answer that could only come too late.
   */
  predicate Able(w: Worker) {
    && Waiting(w) && w.link.conn == Some(w.desk.phase.conn) && !w.stopped
    && (w.desk.phase.Gap? && AnswerDue(w) ==> w.now < w.watch.balanceReplyUntil)
  }

  /** An attempt at this withdrawal can still write its /pay. */
  ghost predicate CanWrite(s: State, id: Id) {
    Live(s, id) && Able(s.worker)
  }

  // Once it cannot it never can again.

  predicate CutOff(w: Worker) {
    !Able(w) && !w.desk.phase.InFlight?
  }

  predicate WritesNoPay(w: Worker, v: Worker) {
    || v.wire.log == w.wire.log
    || (|v.wire.log| == |w.wire.log| + 1 && v.wire.log[..|w.wire.log|] == w.wire.log
       && !v.wire.log[|w.wire.log|].command.Pay?)
  }

  /** An attempt that was waiting in vain waits in vain, or has given up. */
  predicate InVain(w: Worker, v: Worker) {
    Waiting(w) && CutOff(w) ==> CutOff(v) && WritesNoPay(w, v)
  }

  lemma PollsInVain(w: Worker, alive: bool, reconnect: bool)
    requires Phases(w)
    ensures InVain(w, PollJobs(w, alive)) && InVain(w, EndPoll(w)) && InVain(w, StartOtherJob(w))
    ensures InVain(w, EndOtherJob(w, reconnect)) && (w.desk.phase.Reporting? ==> InVain(w, EndReport(w, reconnect)))
  {
    hide MayClaim, AnswerDue;
  }

  lemma ClaimsInVain(s: State)
    requires s.worker.desk.phase.Claiming? && s.worker.desk.phase.event in s.tables.claims
    ensures InVain(s.worker, ClaimedJob(s, s.worker))
  {
    hide ClearAt, AnswerDue;
  }

  lemma SendsInVain(w: Worker, throws: bool)
    requires w.desk.phase.Gap?
    ensures InVain(w, SendPayout(w, throws))
  {
    hide WritePayout;
  }

  lemma AnswersInVain(w: Worker, timer: TimerId, answer: Answer)
    ensures InVain(w, Resolve(Disarmed(w, timer), timer, answer))
  {
    hide Conclude;
  }

  lemma TimersInVain(w: Worker, gap: int)
    requires Phases(w)
    ensures InVain(w, BalanceTimer(w)) && InVain(w, IdleTimer(w, gap))
  {
  }

  lemma BalancesInVain(w: Worker, probe: Probe)
    ensures InVain(w, SeeBalance(w)) && InVain(w, SeePayment(w)) && InVain(w, ProbeTimer(w, probe))
  {
  }

  lemma LogoutsInVain(w: Worker, parked: bool)
    ensures InVain(w, RelogTimer(w)) && InVain(w, RelogWhenIdle(w)) && InVain(w, CheckManualPlay(w, parked))
  {
    hide Busy;
  }

  lemma ConnectionsInVain(w: Worker, gap: int)
    requires Clocks(w) && Phases(w)
    ensures InVain(w, EndConnection(w, gap)) && InVain(w, OpenConnection(w)) && InVain(w, Spawn(w, gap))
    ensures InVain(w, TeleportSettled(w)) && InVain(w, SendRtp(w)) && InVain(w, SeeCooldown(w))
  {
  }

  lemma SwitchesInVain(w: Worker, on: bool, to: int)
    requires to >= w.now
    ensures InVain(w, SetTransferring(w, on)) && InVain(w, Stop(w)) && InVain(w, Restarted(w)) && InVain(w, Tick(w, to))
  {
  }

  lemma PayoutEventInVain(s: State, e: WorkerEvent)
    requires Phases(s.worker) && Clocks(s.worker) && WorkerEnabled(s, e) && IsPayoutEvent(e)
    ensures InVain(s.worker, ApplyWorker(s, e))
  {
    hide InVain, PollJobs, ClaimedJob, SendPayout, Resolve, Disarmed, SeeCooldown, SettlePending, GapFits, Clocks, Phases;
    var w := s.worker;
    match e {
      case Polls(alive) => PollsInVain(w, alive, false);
      case ClaimReturns => ClaimsInVain(s);
      case WaitEnds(throws) => SendsInVain(w, throws);
      case WindowEnds(timer) => AnswersInVain(w, timer, NoAnswer);
      case RefusalSeen(refusal) => SettlesInVain(w, RefusedFor(refusal));
      case ReceiptSeen(seen) => ReceiptsInVain(w, w.wire.log[seen].command.job.payee, s.fates[seen].displayed);
      case CooldownSeen => ConnectionsInVain(w, 0);
    }
  }

  lemma WorkerInVain(s: State, e: WorkerEvent)
    requires Phases(s.worker) && Clocks(s.worker) && WorkerEnabled(s, e)
    ensures InVain(s.worker, ApplyWorker(s, e))
  {
    hide InVain, EndPoll, EndOtherJob, EndReport, BalanceTimer, IdleTimer, SeeBalance, SeePayment, ProbeTimer, RelogTimer,
      RelogWhenIdle, CheckManualPlay, EndConnection, OpenConnection, Spawn, TeleportSettled, SendRtp, SetTransferring,
      Stop, Restarted, Tick, GapFits, Clocks, Phases;
    var w := s.worker;
    if IsPayoutEvent(e) {
      hide WorkerEnabled, ApplyWorker;
      PayoutEventInVain(s, e);
    } else {
      SwitchesInVain(w, if e.TransferSet? then e.on else false, if e.Ticks? then e.to else w.now);
      match e {
        case ClaimFails => PollsInVain(w, false, false);
        case OtherWorkEnds(reconnect) => PollsInVain(w, false, reconnect);
        case ReportEnds(delivered) => PollsInVain(w, false, delivered);
        case BalanceDue => TimersInVain(w, 0);
        case IdleReadDue(gap) => TimersInVain(w, gap);
        case BalanceSeen | PaymentSeen => BalancesInVain(w, Probe(0, 0, 0));
        case ProbeDue(probe) => BalancesInVain(w, probe);
        case RelogDue | RelogRetried => LogoutsInVain(w, false);
        case ManualPlayChecked(parked) => LogoutsInVain(w, parked);
        case ConnectionEnds(_, gap) => ConnectionsInVain(w, gap);
        case Spawns(gap) => ConnectionsInVain(w, gap);
        case LoginStarts | RtpSettled | RtpDue => ConnectionsInVain(w, 0);
        case _ =>
      }
    }
  }

  lemma SettlesInVain(w: Worker, answer: Answer)
    ensures InVain(w, SettlePending(w, answer))
  {
    hide Resolve, Disarmed, Able;
    if w.desk.pending.Some? {
      AnswersInVain(w, w.desk.pending.value.timer, answer);
    }
  }

  lemma ReceiptsInVain(w: Worker, payee: Name, displayed: string)
    ensures InVain(w, SeeReceipt(w, payee, displayed))
  {
    hide SettlePending, Able;
    SettlesInVain(w, Receipt(displayed));
  }

  /** Nothing of this withdrawal will be written: no lease can be given out, and no attempt can still write. */
  ghost predicate Finished(s: State, id: Id) {
    Ended(s.tables, id) && !CanWrite(s, id)
  }

  lemma WaitingInVain(s: State, id: Id)
    requires MayWrite(s, id) && !CanWrite(s, id)
    ensures Waiting(s.worker) && CutOff(s.worker)
  {
    hide AnswerDue;
  }

  lemma VainWritesNothing(s: State, e: WorkerEvent, id: Id)
    requires Clocks(s.worker) && Phases(s.worker) && WorkerEnabled(s, e) && MayWrite(s, id) && !CanWrite(s, id)
    ensures !CanWrite(After(s, ApplyWorker(s, e)), id)
    ensures forall i | IsPayFor(After(s, ApplyWorker(s, e)), i, id) :: IsPayFor(s, i, id)
  {
    hide Clocks, Phases, WorkerEnabled, ApplyWorker, AnswerDue, MayWrite;
    WaitingInVain(s, id);
    WorkerInVain(s, e);
    var w, v := s.worker, ApplyWorker(s, e);
    assert forall i | 0 <= i < |w.wire.log| :: v.wire.log[i] == v.wire.log[..|w.wire.log|][i] || v.wire.log == w.wire.log;
  }

  lemma StepKeepsFinished(s: State, e: Event, id: Id)
    requires Sound(s) && Enabled(s, e) && Finished(s, id)
    ensures Finished(Apply(s, e), id)
    ensures forall i | IsPayFor(Apply(s, e), i, id) :: IsPayFor(s, i, id)
  {
    hide Sound, Clocks, Phases, Shape, Ended, Able, Live;
    SoundIsShaped(s);
    SoundSession(s);
    StepSettles(s, e);
    EndedStays(s.tables, Apply(s, e).tables, id);
    hide Settles, GatewayEnabled, WorkerEnabled, ApplyWorker, ApplyGateway;
    if !MayWrite(s, id) {
      StepKeepsOver(s, e, id);
      NoneWaits(Apply(s, e), id);
    } else {
      match e {
        case AtGateway(event, now) => LiveStays(s, e, id);
        case AtWorker(did) => VainWritesNothing(s, did, id);
        case AtServer(sent, fate) => LiveStays(s, e, id);
      }
    }
  }

  lemma SoundIsShaped(s: State)
    requires Sound(s)
    ensures Shape(s) && Session(s.worker)
  {
    hide Shape, Leases, Rows, Once, Session;
  }

  lemma SoundSession(s: State)
    requires Sound(s)
    ensures Clocks(s.worker) && Phases(s.worker)
    ensures s.worker.desk.pending.Some? ==> s.worker.desk.pending.value.timer in s.worker.desk.payTimers
  {
    SoundIsShaped(s);
    hide Sound, Shape, Strays, Balances, Commands, Clocks, Phases;
  }

  lemma NoneWaits(s: State, id: Id)
    requires !MayWrite(s, id)
    ensures !CanWrite(s, id)
  {
  }

  lemma LiveStays(s: State, e: Event, id: Id)
    requires Enabled(s, e) && !e.AtWorker? && MayWrite(s, id) && !CanWrite(s, id)
    ensures !CanWrite(Apply(s, e), id)
  {
    hide ApplyGateway, GatewayEnabled, Able;
  }

  /** From one state another can be reached. */
  ghost predicate Leads(s: State, t: State) {
    exists path, events :: IsPath(path, events) && path[0] == s && path[|events|] == t
  }

  lemma LeadsToItself(s: State)
    ensures Leads(s, s)
  {
    var path, events: seq<Event> := [s], [];
    assert IsPath(path, events) && path[0] == s && path[|events|] == s;
  }

  lemma LeadsOn(s: State, e: Event, t: State)
    requires Enabled(s, e) && Leads(Apply(s, e), t)
    ensures Leads(s, t)
  {
    hide Enabled, Apply;
    var path, events :| IsPath(path, events) && path[0] == Apply(s, e) && path[|events|] == t;
    var longer, more := [s] + path, [e] + events;
    forall k | 0 <= k < |more|
      ensures Enabled(longer[k], more[k]) && longer[k + 1] == Apply(longer[k], more[k])
    {
      if k > 0 {
        assert longer[k] == path[k - 1] && longer[k + 1] == path[k] && more[k] == events[k - 1];
      }
    }
    assert IsPath(longer, more) && longer[0] == s && longer[|more|] == t;
  }

  lemma LeadsFurther(s: State, t: State, e: Event)
    requires Leads(s, t) && Enabled(t, e)
    ensures Leads(s, Apply(t, e))
  {
    hide Enabled, Apply;
    var path, events :| IsPath(path, events) && path[0] == s && path[|events|] == t;
    var longer, more := path + [Apply(t, e)], events + [e];
    forall k | 0 <= k < |more|
      ensures Enabled(longer[k], more[k]) && longer[k + 1] == Apply(longer[k], more[k])
    {
      if k < |events| {
        assert longer[k] == path[k] && longer[k + 1] == path[k + 1] && more[k] == events[k];
      }
    }
    assert IsPath(longer, more) && longer[0] == s && longer[|more|] == Apply(t, e);
  }

  /**
   * Once a withdrawal's job is dead (expired, stopped, completed), or parked behind a settled row, and no
   * attempt can still write, no /pay is ever written for it again.
   */
  lemma {:induction false} DeadJobsAreNeverSentAgain(path: seq<State>, events: seq<Event>, n: nat, m: nat, id: Id)
    requires IsPath(path, events) && n <= m < |path| && Sound(path[n]) && Finished(path[n], id)
    ensures Finished(path[m], id)
    ensures forall i | IsPayFor(path[m], i, id) :: IsPayFor(path[n], i, id)
  {
    hide Finished, IsPayFor, Enabled, Apply, Sound;
    if n < m {
      DeadJobsAreNeverSentAgain(path, events, n, m - 1, id);
      SoundStays(path, events, n, m - 1);
      StepKeepsFinished(path[m - 1], events[m - 1], id);
    }
  }

  // While it still can, there is a way for it to do so.

  /** A /pay of this withdrawal that comes after the first n commands and is not decided yet. */
  ghost predicate WrittenSince(t: State, n: nat, id: Id) {
    exists i :: i >= n && IsPayFor(t, i, id) && i < |t.fates| && t.fates[i].Undecided?
  }

  ghost predicate MayYetWrite(s: State, n: nat, id: Id) {
    exists t :: Leads(s, t) && WrittenSince(t, n, id)
  }

  lemma OneStepEarlier(s: State, e: Event, n: nat, id: Id)
    requires Enabled(s, e) && MayYetWrite(Apply(s, e), n, id)
    ensures MayYetWrite(s, n, id)
  {
    hide Enabled, Apply, WrittenSince, Leads;
    var t :| Leads(Apply(s, e), t) && WrittenSince(t, n, id);
    LeadsOn(s, e, t);
  }

  /** Nothing keeps the command back once the wait is over. */
  ghost predicate Ready(s: State, id: Id) {
    && s.worker.desk.phase.Gap? && s.worker.desk.phase.job.ref == Withdrawal(id)
    && ConnectionLive(s.worker, s.worker.desk.phase.conn) && !AnswerDue(s.worker)
  }

  lemma Written(s: State, n: nat, id: Id)
    requires Ready(s, id) && n <= |s.worker.wire.log| == |s.fates|
    ensures WrittenSince(After(s, SendPayout(s.worker, false)), n, id)
  {
    var t := After(s, SendPayout(s.worker, false));
    assert SendPayout(s.worker, false) == WritePayout(s.worker) by { hide WritePayout; }
    assert IsPayFor(t, |s.worker.wire.log|, id) && t.fates[|s.worker.wire.log|].Undecided?;
  }

  lemma WaitStep(s: State)
    requires s.worker.desk.phase.Gap? && s.worker.now >= s.worker.desk.phase.wakeAt
    ensures var e := AtWorker(WaitEnds(false));
            Enabled(s, e) && Apply(s, e) == After(s, SendPayout(s.worker, false))
  {
    hide SendPayout, After;
  }

  /** A step that writes nothing: a sound state again, with the worker moved on. */
  lemma QuietStep(s: State, did: WorkerEvent, v: Worker)
    requires Sound(s) && WorkerEnabled(s, did) && ApplyWorker(s, did) == v && v.wire.log == s.worker.wire.log
    ensures Enabled(s, AtWorker(did)) && Apply(s, AtWorker(did)) == s.(worker := v) && Sound(s.(worker := v))
    ensures |s.fates| == |s.worker.wire.log|
  {
    hide Sound, WorkerEnabled, ApplyWorker;
    SoundIsShaped(s);
    StepKeepsSound(s, AtWorker(did));
  }

  lemma ReadyWrites(s: State, n: nat, id: Id)
    requires Sound(s) && Ready(s, id) && n <= |s.worker.wire.log|
    ensures MayYetWrite(s, n, id)
  {
    hide Sound, Leads, WrittenSince, SendPayout, WorkerEnabled, ApplyWorker, Enabled, Apply, After;
    var to := Max(s.worker.now, s.worker.desk.phase.wakeAt);
    var v := Tick(s.worker, to);
    var u := s.(worker := v);
    TickStep(s, to);
    QuietStep(s, Ticks(to), v);
    assert Ready(u, id);
    var t := After(u, SendPayout(v, false));
    Written(u, n, id);
    WaitStep(u);
    LeadsToItself(t);
    assert MayYetWrite(t, n, id);
    OneStepEarlier(u, AtWorker(WaitEnds(false)), n, id);
    OneStepEarlier(s, AtWorker(Ticks(to)), n, id);
  }

  lemma TickStep(s: State, to: int)
    requires to >= s.worker.now
    ensures WorkerEnabled(s, Ticks(to)) && ApplyWorker(s, Ticks(to)) == Tick(s.worker, to)
  {
  }

  /** An attempt for this withdrawal that can still write, in the wait before the command. */
  ghost predicate InGap(s: State, id: Id) {
    s.worker.desk.phase.Gap? && s.worker.desk.phase.job.ref == Withdrawal(id) && Able(s.worker)
  }

  lemma TransferStep(s: State)
    ensures WorkerEnabled(s, TransferSet(false)) && ApplyWorker(s, TransferSet(false)) == SetTransferring(s.worker, false)
  {
  }

  lemma NoTransferLeft(s: State, n: nat, id: Id)
    requires Sound(s) && InGap(s, id) && !AnswerDue(s.worker) && n <= |s.worker.wire.log|
    ensures MayYetWrite(s, n, id)
  {
    hide Sound, MayYetWrite, WorkerEnabled, ApplyWorker, Enabled, Apply;
    var v := SetTransferring(s.worker, false);
    TransferStep(s);
    QuietStep(s, TransferSet(false), v);
    SoundSession(s);
    assert Ready(s.(worker := v), id) by { hide Clocks; }
    ReadyWrites(s.(worker := v), n, id);
    OneStepEarlier(s, AtWorker(TransferSet(false)), n, id);
  }

  lemma AnswerStep(s: State)
    requires s.worker.link.conn.Some?
    ensures WorkerEnabled(s, BalanceSeen) && ApplyWorker(s, BalanceSeen) == SeeBalance(s.worker)
  {
  }

  lemma GapWrites(s: State, n: nat, id: Id)
    requires Sound(s) && InGap(s, id) && n <= |s.worker.wire.log|
    ensures MayYetWrite(s, n, id)
  {
    hide Sound, MayYetWrite, WorkerEnabled, ApplyWorker, Enabled, Apply;
    if AnswerDue(s.worker) {
      var v := SeeBalance(s.worker);
      AnswerStep(s);
      SoundSession(s);
      assert InGap(s.(worker := v), id) && !AnswerDue(v) && v.wire.log == s.worker.wire.log by { hide Phases; }
      hide SeeBalance, AnswerDue, Phases, Clocks;
      QuietStep(s, BalanceSeen, v);
      NoTransferLeft(s.(worker := v), n, id);
      OneStepEarlier(s, AtWorker(BalanceSeen), n, id);
    } else {
      NoTransferLeft(s, n, id);
    }
  }

  /** A claim for this withdrawal has been granted, and its answer is on its way to a connection that is still there. */
  ghost predicate Granted(s: State, id: Id) {
    && s.worker.desk.phase.Claiming? && Live(s, id) && Able(s.worker)
  }

  lemma ClaimStep(s: State, id: Id)
    requires Granted(s, id) && id in s.tables.jobs
    ensures var job := Claimed(Withdrawal(id), s.worker.desk.phase.event, s.tables.jobs[id].payee,
                         s.tables.jobs[id].amount);
            WorkerEnabled(s, ClaimReturns) && ApplyWorker(s, ClaimReturns) == StartPayout(s.worker, job)
  {
    hide StartPayout;
  }

  lemma StartedInGap(s: State, job: Claimed, id: Id)
    requires Granted(s, id) && job.ref == Withdrawal(id)
    requires AnswerDue(s.worker) ==> s.worker.now < s.worker.watch.balanceReplyUntil
    ensures var v := StartPayout(s.worker, job); v.wire.log == s.worker.wire.log && InGap(s.(worker := v), id)
  {
    hide ClearAt;
  }

  lemma ClaimWrites(s: State, n: nat, id: Id)
    requires Sound(s) && Granted(s, id) && n <= |s.worker.wire.log|
    requires AnswerDue(s.worker) ==> s.worker.now < s.worker.watch.balanceReplyUntil
    ensures MayYetWrite(s, n, id)
  {
    hide Sound, MayYetWrite, WorkerEnabled, ApplyWorker, Enabled, Apply, Able, AnswerDue;
    ClaimIsKnown(s, id);
    var job := Claimed(Withdrawal(id), s.worker.desk.phase.event, s.tables.jobs[id].payee,
                 s.tables.jobs[id].amount);
    var v := StartPayout(s.worker, job);
    ClaimStep(s, id);
    StartedInGap(s, job, id);
    hide StartPayout, InGap;
    QuietStep(s, ClaimReturns, v);
    GapWrites(s.(worker := v), n, id);
    OneStepEarlier(s, AtWorker(ClaimReturns), n, id);
  }

  lemma ClaimIsKnown(s: State, id: Id)
    requires Sound(s) && s.worker.desk.phase.Claiming? && Live(s, id)
    ensures id in s.tables.jobs
  {
    SoundIsShaped(s);
    hide Sound, Session;
  }

  /** The balance timer runs, and nothing that puts a /bal off is left. */
  ghost predicate Quiet(s: State, id: Id) {
    && Granted(s, id) && s.worker.desk.pending.None? && !s.worker.transferring && s.worker.watch.balanceTimer.Some?
  }

  lemma BalanceStep(s: State)
    requires s.worker.watch.balanceTimer.Some? && s.worker.now >= s.worker.watch.balanceTimer.value
    ensures WorkerEnabled(s, BalanceDue) && ApplyWorker(s, BalanceDue) == BalanceTimer(s.worker)
  {
    hide BalanceTimer;
  }

  /** A /bal goes out, and its window opens. */
  lemma AskedInTime(s: State, id: Id)
    requires Quiet(s, id) && Phases(s.worker)
    ensures var w, v := s.worker, BalanceTimer(s.worker);
            && v.wire.log == w.wire.log + [Sent(Bal(false), w.link.conn.value, w.now, w.watch.lastBalanceAnswerAt)]
            && v.now < v.watch.balanceReplyUntil && v.desk == w.desk && v.link == w.link && v.stopped == w.stopped
  {
  }

  lemma QuietWrites(s: State, n: nat, id: Id)
    requires Sound(s) && Quiet(s, id) && s.worker.now >= s.worker.watch.balanceTimer.value && n <= |s.worker.wire.log|
    ensures MayYetWrite(s, n, id)
  {
    hide Sound, MayYetWrite, WorkerEnabled, ApplyWorker, Enabled, Apply, BalanceTimer, AnswerDue;
    SoundSession(s);
    BalanceStep(s);
    AskedInTime(s, id);
    var v := BalanceTimer(s.worker);
    var t := After(s, v);
    StepSound(s, BalanceDue);
    assert Granted(t, id);
    hide Quiet, Phases, Clocks, Granted;
    ClaimWrites(t, n, id);
    OneStepEarlier(s, AtWorker(BalanceDue), n, id);
  }

  lemma StepSound(s: State, did: WorkerEvent)
    requires Sound(s) && WorkerEnabled(s, did)
    ensures Enabled(s, AtWorker(did)) && Apply(s, AtWorker(did)) == After(s, ApplyWorker(s, did))
    ensures Sound(After(s, ApplyWorker(s, did)))
  {
    hide Sound, WorkerEnabled, ApplyWorker, After;
    StepKeepsSound(s, AtWorker(did));
  }

  lemma WhenDue(s: State, n: nat, id: Id)
    requires Sound(s) && Quiet(s, id) && n <= |s.worker.wire.log|
    ensures MayYetWrite(s, n, id)
  {
    hide Sound, MayYetWrite, WorkerEnabled, ApplyWorker, Enabled, Apply;
    var to := Max(s.worker.now, s.worker.watch.balanceTimer.value);
    var v := Tick(s.worker, to);
    TickStep(s, to);
    QuietStep(s, Ticks(to), v);
    QuietWrites(s.(worker := v), n, id);
    OneStepEarlier(s, AtWorker(Ticks(to)), n, id);
  }

  lemma PaymentStep(s: State)
    requires s.worker.link.conn.Some?
    ensures WorkerEnabled(s, PaymentSeen) && ApplyWorker(s, PaymentSeen) == SeePayment(s.worker)
  {
  }

  lemma WhenAsked(s: State, n: nat, id: Id)
    requires Sound(s) && Granted(s, id) && n <= |s.worker.wire.log|
    requires s.worker.desk.pending.None? && !s.worker.transferring
    ensures MayYetWrite(s, n, id)
  {
    hide Sound, MayYetWrite, WorkerEnabled, ApplyWorker, Enabled, Apply;
    var v := SeePayment(s.worker);
    PaymentStep(s);
    QuietStep(s, PaymentSeen, v);
    assert Quiet(s.(worker := v), id);
    WhenDue(s.(worker := v), n, id);
    OneStepEarlier(s, AtWorker(PaymentSeen), n, id);
  }

  lemma WhenTransferred(s: State, n: nat, id: Id)
    requires Sound(s) && Granted(s, id) && s.worker.desk.pending.None? && n <= |s.worker.wire.log|
    ensures MayYetWrite(s, n, id)
  {
    hide Sound, MayYetWrite, WorkerEnabled, ApplyWorker, Enabled, Apply;
    var v := SetTransferring(s.worker, false);
    TransferStep(s);
    QuietStep(s, TransferSet(false), v);
    WhenAsked(s.(worker := v), n, id);
    OneStepEarlier(s, AtWorker(TransferSet(false)), n, id);
  }

  lemma WindowStep(s: State, timer: TimerId)
    requires timer in s.worker.desk.payTimers && s.worker.now >= s.worker.desk.payTimers[timer]
    requires !s.worker.desk.phase.InFlight?
    ensures WorkerEnabled(s, WindowEnds(timer)) && ApplyWorker(s, WindowEnds(timer)) == Disarmed(s.worker, timer)
  {
  }

  lemma WhenCleared(s: State, timer: TimerId, n: nat, id: Id)
    requires Sound(s) && Granted(s, id) && n <= |s.worker.wire.log|
    requires timer in s.worker.desk.payTimers && s.worker.now >= s.worker.desk.payTimers[timer]
    ensures MayYetWrite(s, n, id)
  {
    hide Sound, MayYetWrite, WorkerEnabled, ApplyWorker, Enabled, Apply;
    var v := Disarmed(s.worker, timer);
    WindowStep(s, timer);
    QuietStep(s, WindowEnds(timer), v);
    WhenTransferred(s.(worker := v), n, id);
    OneStepEarlier(s, AtWorker(WindowEnds(timer)), n, id);
  }

  lemma WhenRunOut(s: State, n: nat, id: Id)
    requires Sound(s) && Granted(s, id) && s.worker.desk.pending.Some? && n <= |s.worker.wire.log|
    ensures MayYetWrite(s, n, id)
  {
    hide Sound, MayYetWrite, WorkerEnabled, ApplyWorker, Enabled, Apply, Clocks, Phases;
    SoundSession(s);
    var timer := s.worker.desk.pending.value.timer;
    var to := Max(s.worker.now, s.worker.desk.payTimers[timer]);
    var v := Tick(s.worker, to);
    TickStep(s, to);
    QuietStep(s, Ticks(to), v);
    WhenCleared(s.(worker := v), timer, n, id);
    OneStepEarlier(s, AtWorker(Ticks(to)), n, id);
  }

  /** Whatever stands in its way can pass. */
  lemma AbleMayWrite(s: State, n: nat, id: Id)
    requires Sound(s) && CanWrite(s, id) && n <= |s.worker.wire.log|
    ensures MayYetWrite(s, n, id)
  {
    hide Sound, MayYetWrite;
    if s.worker.desk.phase.Gap? {
      GapWrites(s, n, id);
    } else if s.worker.desk.pending.Some? {
      WhenRunOut(s, n, id);
    } else {
      WhenTransferred(s, n, id);
    }
  }

  /**
   * Once a withdrawal's job is dead, or parked behind a settled row: some continuation still writes a /pay for
   * it if and only if an attempt holds its lease on a connection that is still there, in a process that has not
   * been stopped, with no /bal whose answer can only come too late.
   */
  lemma WritesAgainExactly(s: State, id: Id)
    requires Sound(s) && Ended(s.tables, id)
    ensures MayYetWrite(s, |s.worker.wire.log|, id) <==> CanWrite(s, id)
  {
    hide Sound, Ended, CanWrite, WrittenSince;
    if CanWrite(s, id) {
      AbleMayWrite(s, |s.worker.wire.log|, id);
    } else if MayYetWrite(s, |s.worker.wire.log|, id) {
      var t :| Leads(s, t) && WrittenSince(t, |s.worker.wire.log|, id);
      FinishedWritesNothing(s, t, id);
      NothingNew(s, t, id);
    }
  }

  lemma NothingNew(s: State, t: State, id: Id)
    requires forall i | IsPayFor(t, i, id) :: IsPayFor(s, i, id)
    ensures !WrittenSince(t, |s.worker.wire.log|, id)
  {
  }

  lemma FinishedWritesNothing(s: State, t: State, id: Id)
    requires Sound(s) && Finished(s, id) && Leads(s, t)
    ensures Finished(t, id) && forall i | IsPayFor(t, i, id) :: IsPayFor(s, i, id)
  {
    hide Sound, Finished, Enabled, Apply;
    var path, events :| IsPath(path, events) && path[0] == s && path[|events|] == t;
    DeadJobsAreNeverSentAgain(path, events, 0, |events|, id);
  }

  // Leases that run out.

  lemma ExpiryStops(s: State, id: Id, now: int)
    requires id in s.tables.jobs && id in s.tables.rows && Expired(s.tables.jobs[id], now)
    ensures var g, h := s.tables, ExpireLeases(s.tables, now);
            && id in h.jobs && Dead(h.jobs[id]) && h.jobs[id].token == g.jobs[id].token && h.claims == g.claims
            && id in h.rows && (g.rows[id].Open() ==> h.rows[id].status == ManualReview)
            && h.rows[id].refunds == g.rows[id].refunds
  {
  }

  lemma ExpiryStep(run: seq<State>, events: seq<Event>, n: nat, now: int)
    requires IsRun(run, events) && n < |events| && events[n] == AtGateway(MaintenanceRuns, now)
    ensures run[n + 1] == With(run[n], ExpireLeases(run[n].tables, now))
  {
    hide ExpireLeases;
  }

  lemma SameChances(s: State, g: Tables, id: Id)
    requires g.claims == s.tables.claims
    ensures CanWrite(With(s, g), id) == CanWrite(s, id)
  {
    hide Able;
  }

  /** The sweep that finds a lease expired stops its job, keeps its token, and asks an operator; it refunds nothing. */
  lemma ExpiredLeaseStops(run: seq<State>, events: seq<Event>, n: nat, id: Id, now: int)
    requires IsRun(run, events) && n < |events| && events[n] == AtGateway(MaintenanceRuns, now)
    requires id in run[n].tables.jobs && id in run[n].tables.rows && Expired(run[n].tables.jobs[id], now)
    ensures id in run[n + 1].tables.rows && run[n + 1].tables.rows[id].refunds == run[n].tables.rows[id].refunds
    ensures run[n].tables.rows[id].Open() ==> run[n + 1].tables.rows[id].status == ManualReview
    ensures id in run[n + 1].tables.jobs && run[n + 1].tables.jobs[id].token == run[n].tables.jobs[id].token
    ensures Dead(run[n + 1].tables.jobs[id]) && CanWrite(run[n + 1], id) == CanWrite(run[n], id)
  {
    hide IsRun, CanWrite, ExpireLeases, Expired, Dead;
    RunLength(run, events);
    ExpiryStep(run, events, n, now);
    ExpiryStops(run[n], id, now);
    SameChances(run[n], ExpireLeases(run[n].tables, now), id);
  }

  /**
   * A lease that runs out is never followed by another: the job stays dead for the rest of the run, and a further
   * /pay can be written for it if and only if the attempt that held the lease can still write.
   */
  lemma ExpiredLeasesEnd(run: seq<State>, events: seq<Event>, n: nat, m: nat, id: Id, now: int)
    requires IsRun(run, events) && n < m < |run| && events[n] == AtGateway(MaintenanceRuns, now)
    requires id in run[n].tables.jobs && id in run[n].tables.rows && Expired(run[n].tables.jobs[id], now)
    ensures id in run[m].tables.jobs && Dead(run[m].tables.jobs[id])
    ensures MayYetWrite(run[n + 1], |run[n + 1].worker.wire.log|, id) <==> CanWrite(run[n], id)
  {
    hide IsPath, Sound, CanWrite, MayYetWrite, Expired, Dead;
    RunLength(run, events);
    ExpiredLeaseStops(run, events, n, id, now);
    EveryStateIsSound(run, events, n + 1);
    DeadStays(run, events, n + 1, m, id);
    WritesAgainExactly(run[n + 1], id);
  }
}
