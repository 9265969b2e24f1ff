/**
 * Every event of the worker keeps the invariant.
 */
module PayoutWorkerSteps {
  import opened Gateway
  import opened MoneyReading
  import opened Options
  import opened PayoutSystem
  import opened WorkerModel
  import opened PayoutInvariant

  lemma InitiallySafe(now: int)
    ensures Safe(Initial(now))
  {
  }

  /** Rows do not care what the worker does with a lease that stays its own. */
  lemma RowsCarry(s: State, t: State)
    requires Rows(s) && t.tables == s.tables
    requires forall id :: Live(t, id) ==> Live(s, id)
    requires forall id :: Clear(s, id) && !Live(s, id) ==> Clear(t, id)
    requires forall id :: HasMoved(s, id) ==> HasMoved(t, id)
    ensures Rows(t)
  {
    hide Clear, Live, HasMoved, Parked, Waits;
    forall id | id in t.tables.rows
      ensures RowOk(t, id, t.tables.rows[id], JobAt(t.tables, id), Waits(t.tables, id))
    {
      assert RowOk(s, id, s.tables.rows[id], JobAt(s.tables, id), Waits(s.tables, id));
    }
  }

  /** Nor do jobs, as long as what is reported is true. */
  lemma JobsCarry(s: State, t: State)
    requires Leases(s) && t.tables == s.tables && |t.worker.wire.posted| >= |s.worker.wire.posted|
    requires forall k | 0 <= k < |s.worker.wire.posted| :: t.worker.wire.posted[k] == s.worker.wire.posted[k]
    requires forall k | |s.worker.wire.posted| <= k < |t.worker.wire.posted| ::
               SaysNotMoved(t.worker.wire.posted[k].outcome) ==> ClearRef(t, t.worker.wire.posted[k].job)
    requires LiveLease(t) == LiveLease(s) || LiveLease(t).None?
    requires forall id :: Clear(s, id) && !Live(s, id) ==> Clear(t, id)
    requires LiveLease(t).Some? ==> LeaseOk(t, LiveLease(t).value.0, LiveLease(t).value.1)
    requires LiveLease(t).None? ==> forall id :: Clear(s, id) ==> Clear(t, id)
    ensures Leases(t)
  {
    hide Clear, ClearBut, LiveLease;
    forall id | id in t.tables.jobs
      ensures JobOk(t, id, t.tables.jobs[id])
    {
      assert JobOk(s, id, s.tables.jobs[id]);
    }
  }

  /** Nothing of money changed: the worker kept its lease or let go of it. */
  ghost predicate Quiet(s: State, t: State) {
    && t.tables == s.tables && t.fates == s.fates
    && t.worker.wire.log == s.worker.wire.log && t.worker.wire.posted == s.worker.wire.posted
    && t.worker.wire.claimsSent == s.worker.wire.claimsSent && t.worker.wire.nextId >= s.worker.wire.nextId
    && (t.worker.desk.pending == s.worker.desk.pending || t.worker.desk.pending.None?)
    && (t.worker.desk.payoutCooldownSeen ==> s.worker.desk.payoutCooldownSeen)
    && (t.worker.desk.phase == s.worker.desk.phase || t.worker.desk.phase.Idle? || t.worker.desk.phase.OtherJob?)
  }

  lemma QuietKeepsSafe(s: State, t: State)
    requires Safe(s) && Quiet(s, t)
    ensures Safe(t)
  {
    SameMoney(s, t);
    assert Shape(t) && Once(t) by { hide Leases, Rows, Clear, ClearBut, HasMoved; }
    hide Clear, ClearBut, IsPay, IsPayFor, HasMoved, JobOk, Rows, Shape, Once;
    assert LiveLease(t) == LiveLease(s) || LiveLease(t) == None;
    JobsCarry(s, t);
    RowsCarry(s, t);
  }

  lemma SameMoneyBut(s: State, t: State, sent: Sent)
    requires |s.fates| == |s.worker.wire.log|
    requires t.worker.wire.log == s.worker.wire.log + [sent] && t.fates == s.fates + [Undecided] && !sent.command.Pay?
    ensures forall i, id :: IsPayFor(s, i, id) <==> IsPayFor(t, i, id)
    ensures forall i :: IsPay(s, i) <==> IsPay(t, i)
    ensures forall id :: Clear(s, id) <==> Clear(t, id)
    ensures forall id, i :: ClearBut(s, id, i) <==> ClearBut(t, id, i)
    ensures forall id :: HasMoved(s, id) <==> HasMoved(t, id)
  {
    assert forall i, id :: IsPayFor(s, i, id) <==> IsPayFor(t, i, id);
  }

  /** A command that is not a /pay was written. */
  lemma OtherCommandKeepsSafe(s: State, t: State, sent: Sent)
    requires Safe(s) && !sent.command.Pay?
    requires t.tables == s.tables && t.fates == s.fates + [Undecided]
    requires t.worker == s.worker.(wire := s.worker.wire.(log := s.worker.wire.log + [sent]))
    ensures Safe(t)
  {
    SameMoneyBut(s, t, sent);
    assert Shape(t) && Once(t) by { hide Leases, Rows, Clear, ClearBut, HasMoved; }
    hide Clear, ClearBut, IsPay, IsPayFor, HasMoved, JobOk, Rows, Shape, Once;
    assert LiveLease(t) == LiveLease(s);
    JobsCarry(s, t);
    RowsCarry(s, t);
  }

  lemma PollKeepsSafe(s: State, alive: bool)
    requires Safe(s)
    ensures Safe(After(s, PollJobs(s.worker, alive)))
  {
    var t := After(s, PollJobs(s.worker, alive));
    assert t.fates == s.fates;
    SameMoney(s, t);
    hide Clear, ClearBut, IsPay, IsPayFor, HasMoved, JobOk, Rows;
    if t.worker != s.worker {
      assert s.worker.wire.nextId !in s.tables.claims;
      assert LiveLease(t) == None;
    }
    JobsCarry(s, t);
    RowsCarry(s, t);
  }

  lemma StartKeepsShape(s: State, t: State, job: Claimed)
    requires Shape(s) && Once(s) && s.worker.desk.phase.Claiming? && Known(s.tables, job.ref, job.token)
    requires t.worker.desk.phase.Gap? && t.worker.desk.phase.job == job
    requires Quiet(s, t.(worker := t.worker.(desk := t.worker.desk.(phase := Idle))))
    ensures Shape(t) && Once(t)
  {
    SameMoney(s, t);
    hide Clear, ClearBut, HasMoved;
    assert Shape(t) by { hide Once, IsPayFor; }
    assert Once(t) by { hide Shape; }
  }

  /** The claim's answer names a job to pay: its lease, if it has one, is now this attempt's. */
  lemma StartKeepsSafe(s: State, t: State, job: Claimed)
    requires Safe(s) && s.worker.desk.phase.Claiming? && Known(s.tables, job.ref, job.token)
             && LiveLease(s) == LeaseOf(job)
    requires t.worker.desk.phase.Gap? && t.worker.desk.phase.job == job
    requires Quiet(s, t.(worker := t.worker.(desk := t.worker.desk.(phase := Idle))))
    ensures Safe(t)
  {
    SameMoney(s, t);
    StartKeepsShape(s, t, job);
    hide Clear, ClearBut, IsPay, IsPayFor, HasMoved, JobOk, Rows, Shape, Once;
    assert LiveLease(t) == LiveLease(s);
    JobsCarry(s, t);
    RowsCarry(s, t);
  }

  lemma StartPayoutKeepsSafe(s: State, job: Claimed)
    requires Safe(s) && s.worker.desk.phase.Claiming? && Known(s.tables, job.ref, job.token)
             && LiveLease(s) == LeaseOf(job)
    ensures Safe(After(s, StartPayout(s.worker, job)))
  {
    hide Leases, Rows, Once, ClearAt, BalanceSoon;
    SoonLetsGo(s.worker, BALANCE_AFTER_MOVE_MS + PAYOUT_CONFIRM_MS);
    StartKeepsSafe(s, After(s, StartPayout(s.worker, job)), job);
  }

  lemma SoonLetsGo(w: Worker, delay: int)
    ensures var v := BalanceSoon(w, delay);
            LetsGo(w, v) && v.desk.phase == w.desk.phase && v.desk.pending == w.desk.pending
              && v.desk.payoutCooldownSeen == w.desk.payoutCooldownSeen
            && v.desk == w.desk && v.wire == w.wire && v.link == w.link && v.now == w.now && v.stopped == w.stopped
  {
  }

  lemma ClaimReturnsKeepsSafe(s: State)
    requires Safe(s) && s.worker.desk.phase.Claiming? && s.worker.desk.phase.event in s.tables.claims
    ensures Safe(After(s, ClaimedJob(s, s.worker)))
  {
    var w := s.worker;
    assert s.tables.claims[w.desk.phase.event].ForPayout? ==> s.tables.claims[w.desk.phase.event].id in s.tables.jobs by {
      hide Leases, Rows, Once;
    }
    hide Safe, After, StartPayout, EndPoll, StartOtherJob, LetsGo;
    PollsThatEndLetGo(w, false);
    LettingGoKeepsSafe(s, EndPoll(w));
    LettingGoKeepsSafe(s, StartOtherJob(w));
    match s.tables.claims[w.desk.phase.event] {
      case ForPayout(id) =>
        var job := s.tables.jobs[id];
        StartPayoutKeepsSafe(s, Claimed(Withdrawal(id), w.desk.phase.event, job.payee, job.amount));
      case ForTransfer(payee, amount) =>
        StartPayoutKeepsSafe(s, Claimed(OtherMoney, w.desk.phase.event, payee, amount));
      case _ =>
    }
  }

  /** The running attempt reported its result, after perhaps closing its entry. */
  ghost predicate Reports(s: State, t: State, job: Claimed, outcome: Outcome) {
    && t.tables == s.tables && t.fates == s.fates && t.worker.wire.log == s.worker.wire.log
    && t.worker.wire.claimsSent == s.worker.wire.claimsSent && t.worker.wire.nextId >= s.worker.wire.nextId
    && (t.worker.desk.pending == s.worker.desk.pending || t.worker.desk.pending.None?)
    && t.worker.desk.phase.Reporting?
    && exists event :: t.worker.wire.posted == s.worker.wire.posted + [Result(event, job.ref, job.token, outcome)]
  }

  lemma ReportKeepsShape(s: State, t: State, job: Claimed, outcome: Outcome)
    requires Shape(s) && Once(s) && Reports(s, t, job, outcome)
    requires (s.worker.desk.phase.Gap? || s.worker.desk.phase.InFlight?) && s.worker.desk.phase.job == job
    ensures Shape(t) && Once(t)
  {
    SameMoney(s, t);
    hide Clear, ClearBut, HasMoved;
    assert Shape(t) by { hide Once, IsPayFor; }
    assert Once(t) by { hide Shape; }
  }

  lemma ReportKeepsSafe(s: State, t: State, job: Claimed, outcome: Outcome)
    requires Safe(s) && Reports(s, t, job, outcome)
    requires (s.worker.desk.phase.Gap? || s.worker.desk.phase.InFlight?) && s.worker.desk.phase.job == job
    requires SaysNotMoved(outcome) ==> ClearRef(s, job.ref)
    ensures Safe(t)
  {
    SameMoney(s, t);
    ReportKeepsShape(s, t, job, outcome);
    hide Clear, ClearBut, IsPay, IsPayFor, HasMoved, JobOk, Rows, Shape, Once;
    assert LiveLease(t) == None;
    JobsCarry(s, t);
    RowsCarry(s, t);
  }

  /** The /pay is written: the one command of this attempt whose outcome is open. */
  ghost predicate Writes(s: State, t: State, job: Claimed) {
    && t.tables == s.tables && t.fates == s.fates + [Undecided]
    && t.worker.wire.claimsSent == s.worker.wire.claimsSent && t.worker.wire.nextId > s.worker.wire.nextId
    && t.worker.wire.posted == s.worker.wire.posted && !t.worker.desk.payoutCooldownSeen
    && t.worker.desk.phase.InFlight? && t.worker.desk.phase.job == job && t.worker.desk.phase.sent == |s.worker.wire.log|
    && t.worker.desk.pending.Some? && t.worker.desk.pending.value.sent == |s.worker.wire.log|
    && t.worker.desk.pending.value.timer == t.worker.desk.phase.timer
    && exists sent: Sent ::
         && t.worker.wire.log == s.worker.wire.log + [sent] && sent.command.Pay?
         && sent.command.job == job
  }

  lemma MoneyAfterWrite(s: State, t: State, job: Claimed)
    requires Shape(s) && Writes(s, t, job) && ClearRef(s, job.ref)
    ensures forall i, id :: IsPayFor(t, i, id) <==>
            IsPayFor(s, i, id)
            || (i == |s.worker.wire.log| && job.ref == Withdrawal(id))
    ensures forall id | Withdrawal(id) != job.ref :: Clear(s, id) ==> Clear(t, id)
    ensures forall id :: HasMoved(s, id) ==> HasMoved(t, id)
    ensures job.ref.Withdrawal? ==> ClearBut(t, job.ref.id, |s.worker.wire.log|)
  {
    var last := |s.worker.wire.log|;
    assert forall i, id | i != last :: IsPayFor(t, i, id) <==> IsPayFor(s, i, id);
  }

  lemma WriteKeepsShape(s: State, t: State, job: Claimed)
    requires Shape(s) && Writes(s, t, job) && Once(s) && ClearRef(s, job.ref)
    requires s.worker.desk.phase.Gap? && s.worker.desk.phase.job == job
    ensures Shape(t) && Once(t)
  {
    MoneyAfterWrite(s, t, job);
    assert forall i | IsPay(t, i) && i < |s.worker.wire.log| :: IsPay(s, i);
    hide HasMoved, ClearBut;
  }

  lemma WriteKeepsSafe(s: State, t: State, job: Claimed)
    requires Safe(s) && Writes(s, t, job)
    requires s.worker.desk.phase.Gap? && s.worker.desk.phase.job == job
    ensures Safe(t)
  {
    StartsClear(s);
    WriteKeepsShape(s, t, job);
    MoneyAfterWrite(s, t, job);
    hide Clear, ClearBut, IsPay, IsPayFor, HasMoved, JobOk, Rows, Shape, Once;
    assert LiveLease(t) == LiveLease(s) == LeaseOf(job);
    JobsCarry(s, t);
    RowsCarry(s, t);
  }

  lemma StartsClear(s: State)
    requires Safe(s) && s.worker.desk.phase.Gap?
    ensures ClearRef(s, s.worker.desk.phase.job.ref)
  {
    hide Rows, Once;
  }

  lemma HoldBackReports(s: State, retryable: bool)
    requires |s.fates| == |s.worker.wire.log| && s.worker.desk.phase.Gap?
    ensures Reports(s, After(s, HoldBack(s.worker, retryable)), s.worker.desk.phase.job, Failed(retryable, NotSent))
  {
  }

  lemma WritePayoutWrites(s: State)
    requires |s.fates| == |s.worker.wire.log| && s.worker.desk.phase.Gap? && s.worker.link.conn.Some?
    ensures Writes(s, After(s, WritePayout(s.worker)), s.worker.desk.phase.job)
  {
    var w, t := s.worker, WritePayout(s.worker);
    assert t.wire.log == w.wire.log + [t.wire.log[|w.wire.log|]];
  }

  /** A write that throws has written what a write that returns does, and reports at once. */
  lemma ThrownWriteReports(s: State, u: Worker, job: Claimed)
    requires |s.fates| <= |u.wire.log|
    ensures Reports(After(s, u), After(s, Report(u, job, Failed(false, PayoutFailed), false)), job,
                    Failed(false, PayoutFailed))
  {
  }

  lemma WaitEndsKeepsSafe(s: State, throws: bool)
    requires Safe(s) && s.worker.desk.phase.Gap?
    ensures Safe(After(s, SendPayout(s.worker, throws)))
  {
    var w, job := s.worker, s.worker.desk.phase.job;
    assert |s.fates| == |w.wire.log| by { hide Leases, Rows, Once; }
    hide Safe, Clear, HoldBack, WritePayout, Report, AnswerDue, Reports, After;
    StartsClear(s);
    if !ConnectionLive(w, w.desk.phase.conn) || AnswerDue(w) {
      var retryable := ConnectionLive(w, w.desk.phase.conn);
      HoldBackReports(s, retryable);
      ReportKeepsSafe(s, After(s, HoldBack(w, retryable)), job, Failed(retryable, NotSent));
    } else {
      var u := After(s, WritePayout(w));
      WritePayoutWrites(s);
      WriteKeepsSafe(s, u, job);
      if throws {
        assert u.worker.desk.phase == InFlight(job, w.wire.nextId, |w.wire.log|);
        ThrownWriteReports(s, WritePayout(w), job);
        ReportKeepsSafe(u, After(s, Report(WritePayout(w), job, Failed(false, PayoutFailed), false)), job,
                        Failed(false, PayoutFailed));
      }
    }
  }

  lemma ConcludeReports(u: State, job: Claimed, answer: Answer)
    ensures Reports(u, u.(worker := Conclude(u.worker, job, answer)), job,
                    Conclusion(job, answer, u.worker.desk.payoutCooldownSeen))
  {
    hide Conclusion;
  }

  lemma NotMovedIsConcludedFrom(job: Claimed, answer: Answer, cooldown: bool)
    requires SaysNotMoved(Conclusion(job, answer, cooldown))
    ensures answer.RefusedFor? || (answer == NoAnswer && cooldown)
  {
    hide CoversRequestedAmount, IsAmountText;
  }

  lemma CooldownClears(u: State)
    requires Safe(u) && u.worker.desk.phase.InFlight? && u.worker.desk.payoutCooldownSeen
    ensures ClearRef(u, u.worker.desk.phase.job.ref)
  {
    hide Rows;
    if u.worker.desk.phase.job.ref.Withdrawal? {
      assert ClearBut(u, u.worker.desk.phase.job.ref.id, u.worker.desk.phase.sent);
    }
  }

  /** An answer, or the end of the window, for whichever payout waits on the timer. */
  lemma ResolveKeepsSafe(u: State, timer: TimerId, answer: Answer)
    requires Safe(u)
    requires u.worker.desk.phase.InFlight? && answer.RefusedFor? ==> ClearRef(u, u.worker.desk.phase.job.ref)
    ensures Safe(u.(worker := Resolve(u.worker, timer, answer)))
  {
    hide Safe, ClearRef, Reports, Conclude, Conclusion;
    var t := u.(worker := Resolve(u.worker, timer, answer));
    if u.worker.desk.phase.InFlight? && u.worker.desk.phase.timer == timer {
      var job := u.worker.desk.phase.job;
      var outcome := Conclusion(job, answer, u.worker.desk.payoutCooldownSeen);
      ConcludeReports(u, job, answer);
      if SaysNotMoved(outcome) {
        NotMovedIsConcludedFrom(job, answer, u.worker.desk.payoutCooldownSeen);
        if !answer.RefusedFor? {
          CooldownClears(u);
        }
      }
      ReportKeepsSafe(u, t, job, outcome);
    }
  }

  lemma WindowEndsKeepsSafe(s: State, timer: TimerId)
    requires Safe(s)
    ensures Safe(After(s, PayoutTimer(s.worker, timer)))
  {
    hide Leases, Rows, Once, Conclude;
    var w := s.worker;
    var u := s.(worker := Disarmed(w, timer));
    QuietKeepsSafe(s, u);
    ResolveKeepsSafe(u, timer, NoAnswer);
    ResolveWritesNothing(u.worker, timer, NoAnswer);
  }

  lemma ResolveWritesNothing(w: Worker, timer: TimerId, answer: Answer)
    ensures Resolve(w, timer, answer).wire.log == w.wire.log
  {
    hide Conclusion;
    if w.desk.phase.InFlight? && w.desk.phase.timer == timer {
    }
  }

  lemma RefusedIsClear(s: State)
    requires Safe(s) && s.worker.desk.pending.Some? && s.worker.desk.phase.InFlight?
    requires s.fates[s.worker.desk.pending.value.sent].NotMoved?
    ensures ClearRef(s, s.worker.desk.phase.job.ref)
  {
    hide Rows, Once;
    if s.worker.desk.phase.job.ref.Withdrawal? {
      assert ClearBut(s, s.worker.desk.phase.job.ref.id, s.worker.desk.phase.sent);
    }
  }

  lemma SettleKeepsSafe(s: State, answer: Answer)
    requires Safe(s)
    requires s.worker.desk.pending.Some? && answer.RefusedFor? ==> s.fates[s.worker.desk.pending.value.sent].NotMoved?
    ensures Safe(After(s, SettlePending(s.worker, answer)))
  {
    hide Leases, Rows, Once, Conclude, Clear;
    var w := s.worker;
    if w.desk.pending.Some? {
      var timer := w.desk.pending.value.timer;
      var u := s.(worker := Disarmed(w, timer));
      QuietKeepsSafe(s, u);
      if w.desk.phase.InFlight? && answer.RefusedFor? {
        RefusedIsClear(s);
        SameClear(s, u, w.desk.phase.job.ref);
      }
      ResolveKeepsSafe(u, timer, answer);
      ResolveWritesNothing(u.worker, timer, answer);
    }
  }

  lemma SameClear(s: State, u: State, ref: JobRef)
    requires s.worker.wire.log == u.worker.wire.log && s.fates == u.fates
    ensures ClearRef(s, ref) <==> ClearRef(u, ref)
  {
    assert forall i, id :: IsPayFor(s, i, id) <==> IsPayFor(u, i, id);
  }

  lemma FlagKeepsSafe(s: State, t: State)
    requires Safe(s) && t == s.(worker := s.worker.(desk := s.worker.desk.(payoutCooldownSeen := true)))
    requires s.worker.desk.pending.Some? && s.fates[s.worker.desk.pending.value.sent].NotMoved?
    ensures Safe(t)
  {
    SameMoney(s, t);
    assert Shape(t) && Once(t) by { hide Leases, Rows, Clear, ClearBut, HasMoved; }
    hide Clear, ClearBut, IsPay, IsPayFor, HasMoved, JobOk, Rows, Shape, Once;
    assert LiveLease(t) == LiveLease(s);
    JobsCarry(s, t);
    RowsCarry(s, t);
  }

  lemma CooldownKeepsSafe(s: State)
    requires Safe(s)
    requires s.worker.desk.pending.Some? ==> s.fates[s.worker.desk.pending.value.sent].NotMoved?
    ensures Safe(After(s, SeeCooldown(s.worker)))
  {
    hide Leases, Rows, Once;
    if s.worker.desk.pending.Some? {
      FlagKeepsSafe(s, s.(worker := s.worker.(desk := s.worker.desk.(payoutCooldownSeen := true))));
    } else {
      assert s.worker == SeeCooldown(s.worker);
    }
  }

  /** The events that only let go of things. */
  ghost predicate LetsGo(w: Worker, v: Worker) {
    && v.wire.log == w.wire.log && v.wire.posted == w.wire.posted && v.wire.claimsSent == w.wire.claimsSent
       && v.wire.nextId >= w.wire.nextId
    && (v.desk.pending == w.desk.pending || v.desk.pending.None?)
    && (v.desk.payoutCooldownSeen ==> w.desk.payoutCooldownSeen)
    && (v.desk.phase == w.desk.phase || v.desk.phase.Idle? || v.desk.phase.OtherJob?)
  }

  lemma LettingGoKeepsSafe(s: State, v: Worker)
    requires Safe(s) && LetsGo(s.worker, v)
    ensures Safe(After(s, v))
  {
    hide Leases, Rows, Once;
    QuietKeepsSafe(s, After(s, v));
  }

  function WithLog(w: Worker, log: seq<Sent>): Worker {
    w.(wire := w.wire.(log := log))
  }

  lemma CommandKeepsSafe(s: State, v: Worker, sent: Sent)
    requires Safe(s) && v.wire.log == s.worker.wire.log + [sent] && !sent.command.Pay?
    requires LetsGo(s.worker, WithLog(v, s.worker.wire.log))
    ensures Safe(After(s, v))
  {
    hide Leases, Rows, Once;
    var u := After(s, WithLog(v, s.worker.wire.log));
    LettingGoKeepsSafe(s, WithLog(v, s.worker.wire.log));
    assert After(s, v).fates == s.fates + [Undecided];
    OtherCommandKeepsSafe(u, After(s, v), sent);
  }

  /** Writes nothing but at most a /bal. */
  ghost predicate AsksAtMost(w: Worker, v: Worker) {
    || LetsGo(w, v)
    || exists sent: Sent :: sent.command.Bal? && v.wire.log == w.wire.log + [sent] && LetsGo(w, WithLog(v, w.wire.log))
  }

  lemma AskingKeepsSafe(s: State, v: Worker)
    requires Safe(s) && AsksAtMost(s.worker, v)
    ensures Safe(After(s, v))
  {
    hide Safe, LetsGo;
    if LetsGo(s.worker, v) {
      LettingGoKeepsSafe(s, v);
    } else {
      var sent: Sent :| sent.command.Bal? && v.wire.log == s.worker.wire.log + [sent]
          && LetsGo(s.worker, WithLog(v, s.worker.wire.log));
      CommandKeepsSafe(s, v, sent);
    }
  }

  lemma AskAsks(w: Worker, idle: bool)
    requires w.link.conn.Some?
    ensures AsksAtMost(w, AskBalance(w, idle))
  {
    var v := AskBalance(w, idle);
    assert v.wire.log == w.wire.log + [Sent(Bal(idle), w.link.conn.value, w.now, w.watch.lastBalanceAnswerAt)];
    assert LetsGo(w, WithLog(v, w.wire.log));
  }

  lemma RequestAsks(w: Worker, idle: bool)
    ensures AsksAtMost(w, RequestBalance(w, idle))
  {
    SoonLetsGo(w, BALANCE_AFTER_MOVE_MS);
    assert LetsGo(w, w);
    hide LetsGo, BalanceSoon, AskBalance;
    if w.link.conn.Some? {
      AskAsks(w, idle);
    }
  }

  /** Timers that are armed or gone do not matter here. */
  lemma WatchDoesNotMatter(w: Worker, u: Worker, v: Worker, x: Worker)
    requires u == w.(watch := u.watch) && AsksAtMost(u, v) && x == v.(watch := x.watch)
    ensures AsksAtMost(w, x)
  {
    if LetsGo(u, v) {
      assert LetsGo(w, x);
    } else {
      var sent: Sent :| sent.command.Bal? && v.wire.log == u.wire.log + [sent] && LetsGo(u, WithLog(v, u.wire.log));
      assert x.wire.log == w.wire.log + [sent] && LetsGo(w, WithLog(x, w.wire.log));
    }
  }

  lemma TimersAsk(w: Worker, gap: int)
    ensures AsksAtMost(w, BalanceTimer(w)) && AsksAtMost(w, IdleTimer(w, gap))
  {
    var soon, idle := w.(watch := w.watch.(balanceTimer := None)), w.(watch := w.watch.(idleTimer := None));
    RequestAsks(soon, false);
    RequestAsks(idle, true);
    hide AsksAtMost, RequestBalance;
    WatchDoesNotMatter(w, soon, RequestBalance(soon, false), BalanceTimer(w));
    WatchDoesNotMatter(w, idle, RequestBalance(idle, true), IdleTimer(w, gap));
  }

  lemma RtpDueKeepsSafe(s: State)
    requires Safe(s)
    ensures Safe(After(s, SendRtp(s.worker)))
  {
    hide Safe;
    var w, v := s.worker, SendRtp(s.worker);
    if v == w {
      LettingGoKeepsSafe(s, v);
    } else {
      CommandKeepsSafe(s, v, v.wire.log[|w.wire.log|]);
    }
  }

  lemma PollsThatEndLetGo(w: Worker, reconnect: bool)
    ensures LetsGo(w, EndPoll(w)) && LetsGo(w, StartOtherJob(w)) && LetsGo(w, EndOtherJob(w, reconnect))
  {
  }

  lemma ReportsThatEndLetGo(w: Worker, delivered: bool)
    requires w.desk.phase.Reporting?
    ensures LetsGo(w, EndReport(w, delivered))
  {
  }

  lemma BalanceLetsGo(w: Worker)
    ensures LetsGo(w, SeeBalance(w))
  {
    if w.now >= w.watch.balanceReplyUntil {
      assert LetsGo(w, SeeBalance(w));
    } else {
      assert LetsGo(w, SeeBalance(w));
    }
  }

  lemma CycleLetsGo(w: Worker, reason: bool)
    ensures LetsGo(w, CycleConnection(w, reason))
  {
  }

  lemma LetsGoTwice(w: Worker, u: Worker, v: Worker)
    requires LetsGo(w, u) && LetsGo(u, v)
    ensures LetsGo(w, v)
  {
  }

  lemma SilenceLetsGo(w: Worker)
    ensures LetsGo(w, CountSilence(w))
  {
    var counted := w.(watch := w.watch.(awaitingAnswer := true, unansweredProbes := w.watch.unansweredProbes + 1));
    assert LetsGo(w, counted);
    SoonLetsGo(counted, COMMAND_PROBE_GAP_MS);
    CycleLetsGo(counted, true);
    hide LetsGo, BalanceSoon, CycleConnection;
    LetsGoTwice(w, counted, CountSilence(w));
  }

  lemma ProbeLetsGo(w: Worker, probe: Probe)
    ensures LetsGo(w, ProbeTimer(w, probe))
  {
    assert LetsGo(w, DropProbe(w, probe));
    hide LetsGo, DropProbe, CountSilence;
    if Silent(w, probe) {
      SilenceLetsGo(DropProbe(w, probe));
      LetsGoTwice(w, DropProbe(w, probe), CountSilence(DropProbe(w, probe)));
    }
  }

  lemma LogoutsLetGo(w: Worker, parked: bool)
    ensures LetsGo(w, RelogTimer(w)) && LetsGo(w, RelogWhenIdle(w)) && LetsGo(w, CheckManualPlay(w, parked))
  {
  }

  lemma ConnectionsLetGo(w: Worker, gap: int)
    ensures LetsGo(w, EndConnection(w, gap)) && LetsGo(w, OpenConnection(w)) && LetsGo(w, Spawn(w, gap))
    ensures LetsGo(w, TeleportSettled(w)) && LetsGo(w, SeePayment(w))
  {
    SoonLetsGo(w.(link := w.link.(teleporting := false)), 0);
    SoonLetsGo(w, BALANCE_AFTER_MOVE_MS);
    hide BalanceSoon;
  }

  lemma SwitchesLetGo(w: Worker, on: bool, to: int)
    ensures LetsGo(w, SetTransferring(w, on)) && LetsGo(w, Stop(w)) && LetsGo(w, Restarted(w)) && LetsGo(w, Tick(w, to))
  {
  }

  lemma LettingGo(s: State, e: WorkerEvent)
    requires WorkerEnabled(s, e)
    requires !e.Polls? && !e.ClaimReturns? && !e.WaitEnds? && !e.WindowEnds? && !e.RefusalSeen? && !e.ReceiptSeen?
             && !e.CooldownSeen? && !e.BalanceDue? && !e.IdleReadDue? && !e.RtpDue?
    ensures LetsGo(s.worker, ApplyWorker(s, e))
  {
    hide LetsGo, EndPoll, EndOtherJob, EndReport, SeeBalance, SeePayment, BalanceTimer, IdleTimer, ProbeTimer,
      RelogTimer, RelogWhenIdle,
      CheckManualPlay, EndConnection, OpenConnection, Spawn, TeleportSettled, SetTransferring, Stop, Restarted, Tick,
      PollJobs, ClaimedJob, SendPayout, PayoutTimer, SeeRefusal, SeeReceipt, SeeCooldown, SendRtp, GapFits;
    var w := s.worker;
    match e {
      case ClaimFails => PollsThatEndLetGo(w, false);
      case OtherWorkEnds(reconnect) => PollsThatEndLetGo(w, reconnect);
      case ReportEnds(delivered) => ReportsThatEndLetGo(w, delivered);
      case Ticks(to) => SwitchesLetGo(w, false, to);
      case BalanceSeen => BalanceLetsGo(w);
      case ProbeDue(probe) => ProbeLetsGo(w, probe);
      case RelogDue | RelogRetried => LogoutsLetGo(w, false);
      case ManualPlayChecked(parked) => LogoutsLetGo(w, parked);
      case ConnectionEnds(_, gap) => ConnectionsLetGo(w, gap);
      case LoginStarts | RtpSettled | PaymentSeen => ConnectionsLetGo(w, 0);
      case Spawns(gap) => ConnectionsLetGo(w, gap);
      case TransferSet(on) => SwitchesLetGo(w, on, 0);
      case _ => SwitchesLetGo(w, false, 0);
    }
  }

  lemma PendingIsDecided(s: State, e: WorkerEvent)
    requires Safe(s) && WorkerEnabled(s, e) && (e.RefusalSeen? || e.CooldownSeen?)
    ensures s.worker.desk.pending.Some? ==>
              s.worker.desk.pending.value.sent < |s.fates| && s.fates[s.worker.desk.pending.value.sent].NotMoved?
  {
    hide Leases, Rows, Once, GapFits;
  }

  lemma SeeReceiptSettles(w: Worker, payee: Name, displayed: string)
    ensures SeeReceipt(w, payee, displayed) == w
            || SeeReceipt(w, payee, displayed) == SettlePending(w, Receipt(displayed))
  {
    hide SettlePending;
  }

  lemma ReceiptKeepsSafe(s: State, payee: Name, displayed: string)
    requires Safe(s)
    ensures Safe(After(s, SeeReceipt(s.worker, payee, displayed)))
  {
    hide Safe, SeeReceipt, SettlePending;
    SeeReceiptSettles(s.worker, payee, displayed);
    SettleKeepsSafe(s, Receipt(displayed));
    LettingGoKeepsSafe(s, s.worker);
  }

  lemma WorkerKeepsSafe(s: State, e: WorkerEvent)
    requires Safe(s) && WorkerEnabled(s, e)
    ensures Safe(After(s, ApplyWorker(s, e)))
  {
    hide Safe, After, LetsGo, AsksAtMost, EndPoll, EndOtherJob, EndReport, SeeBalance, SeePayment, ProbeTimer, RelogTimer,
      RelogWhenIdle, CheckManualPlay, EndConnection, OpenConnection, Spawn, TeleportSettled, SetTransferring, Stop,
      Restarted, Tick, PollJobs, ClaimedJob, SendPayout, PayoutTimer, SeeReceipt, SettlePending, SeeCooldown,
      BalanceTimer, IdleTimer, SendRtp, GapFits;
    match e {
      case Polls(alive) => PollKeepsSafe(s, alive);
      case ClaimReturns => ClaimReturnsKeepsSafe(s);
      case WaitEnds(throws) => WaitEndsKeepsSafe(s, throws);
      case WindowEnds(timer) => WindowEndsKeepsSafe(s, timer);
      case RefusalSeen(refusal) =>
        PendingIsDecided(s, e);
        SettleKeepsSafe(s, RefusedFor(refusal));
      case ReceiptSeen(sent) => ReceiptKeepsSafe(s, s.worker.wire.log[sent].command.job.payee, s.fates[sent].displayed);
      case CooldownSeen =>
        PendingIsDecided(s, e);
        CooldownKeepsSafe(s);
      case BalanceDue =>
        TimersAsk(s.worker, 0);
        AskingKeepsSafe(s, BalanceTimer(s.worker));
      case IdleReadDue(gap) =>
        TimersAsk(s.worker, gap);
        AskingKeepsSafe(s, IdleTimer(s.worker, gap));
      case RtpDue => RtpDueKeepsSafe(s);
      case _ =>
        LettingGo(s, e);
        LettingGoKeepsSafe(s, ApplyWorker(s, e));
    }
  }
}
