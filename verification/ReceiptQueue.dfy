/**
 * The queue of payment receipts as it runs: every receipt has a task of its own, chained behind the one
 * before, and receipts arrive, attempts are answered and delays pass in any order the chain allows.
 */
module ReceiptQueue {
  import opened Receipts

  /** Where the report of one receipt is suspended. `from` is the place on the wire its current POST began at. */
  datatype Task =
    | Queued
    | Attempting(kind: Kind, attempt: nat, round: nat, from: nat)
    | Resting(kind: Kind, attempt: nat, round: nat, from: nat)
    | Delaying(round: nat)
    | Finished

  datatype Chain = Chain(receipts: seq<Receipt>, tasks: seq<Task>, wire: seq<Sent>)

  datatype Event =
    | Arrives(receipt: Receipt)
    | Begins(i: nat)
    | Answered(i: nat)
    | RestEnds(i: nat)
    | DelayEnds(i: nat)

  /** A task begins once the one before it is over, however that went. */
  predicate Enabled(c: Chain, e: Event) {
    match e
    case Arrives(_) => true
    case Begins(i) => i < |c.tasks| && c.tasks[i].Queued? && (i > 0 ==> c.tasks[i - 1].Finished?)
    case Answered(i) => i < |c.tasks| && c.tasks[i].Attempting?
    case RestEnds(i) => i < |c.tasks| && c.tasks[i].Resting?
    case DelayEnds(i) => i < |c.tasks| && c.tasks[i].Delaying?
  }

  function AttemptOf(receipt: Receipt, i: nat, kind: Kind): Sent {
    Sent(i, kind, if kind == Notice then receipt.event else receipt.exactEvent)
  }

  /** The next attempt goes out. */
  function Try(c: Chain, i: nat, kind: Kind, attempt: nat, round: nat, from: nat): Chain
    requires i < |c.tasks| && i < |c.receipts|
  {
    c.(tasks := c.tasks[i := Attempting(kind, attempt, round, from)],
      wire := c.wire + [AttemptOf(c.receipts[i], i, kind)])
  }

  function Suspend(c: Chain, i: nat, task: Task): Chain
    requires i < |c.tasks|
  {
    c.(tasks := c.tasks[i := task])
  }

  /** An attempt was not taken: tried again after a rest, or after a delay, or given up. */
  function AfterRefusal(task: Task, answer: Answer, delays: nat): Task
    requires task.Attempting?
  {
    if task.attempt + 1 < POST_ATTEMPTS then Resting(task.kind, task.attempt + 1, task.round, task.from)
    else if task.kind == Exact || task.round >= delays || IsDefiniteRefusal(answer) then Finished
    else Delaying(task.round + 1)
  }

  function TakeAnswer(c: Chain, i: nat, answer: Answer, delays: nat): Chain
    requires i < |c.tasks| && i < |c.receipts| && c.tasks[i].Attempting?
  {
    if !answer.Taken? then Suspend(c, i, AfterRefusal(c.tasks[i], answer, delays))
    else if c.tasks[i].kind == Notice && c.receipts[i].exact then Try(c, i, Exact, 0, 0, |c.wire|)
    else Suspend(c, i, Finished)
  }

  /** Attempt number n on the wire is answered with answers(n); nothing is assumed about when. */
  function Step(c: Chain, e: Event, answers: nat -> Answer, delays: nat): Chain
    requires Enabled(c, e) && |c.tasks| == |c.receipts|
  {
    match e
    case Arrives(receipt) => c.(receipts := c.receipts + [receipt], tasks := c.tasks + [Queued])
    case Begins(i) => Try(c, i, Notice, 0, 0, |c.wire|)
    case Answered(i) => TakeAnswer(c, i, answers(if |c.wire| > 0 then |c.wire| - 1 else 0), delays)
    case RestEnds(i) => Try(c, i, c.tasks[i].kind, c.tasks[i].attempt, c.tasks[i].round, c.tasks[i].from)
    case DelayEnds(i) => Try(c, i, Notice, 0, c.tasks[i].round, |c.wire|)
  }

  ghost predicate IsRun(run: seq<Chain>, events: seq<Event>, answers: nat -> Answer, delays: nat) {
    && |run| == |events| + 1 && run[0] == Chain([], [], [])
    && forall n | 0 <= n < |events| ::
         && Enabled(run[n], events[n]) && |run[n].tasks| == |run[n].receipts|
         && run[n + 1] == Step(run[n], events[n], answers, delays)
  }

  // Where the running task stands, in terms of reporting the receipts one after another.

  /** `from` is where round `round` of the report begun at `start` is. */
  ghost predicate OnRound(answers: nat -> Answer, delays: nat, start: nat, round: nat, from: nat) {
    && round <= delays && start <= from
    && ReportLength(answers, start, delays) == from - start + ReportLength(answers, from, delays - round)
  }

  ghost predicate OnPost(answers: nat -> Answer, from: nat, attempt: nat) {
    && attempt < POST_ATTEMPTS
    && PostLength(answers, from, POST_ATTEMPTS) == attempt + PostLength(answers, from + attempt, POST_ATTEMPTS - attempt)
  }

  /** What the receipt's notice, and after it its exact amount, have put on the wire so far. */
  ghost predicate Progress(
      task: Task, receipt: Receipt, i: nat, start: nat, own: seq<Sent>, answers: nat -> Answer, delays: nat)
  {
    var notice, exact := Sent(i, Notice, receipt.event), Sent(i, Exact, receipt.exactEvent);
    match task
    case Queued => own == []
    case Finished => own == OfReceipt(answers, start, receipt, i, delays)
    case Delaying(round) => OnRound(answers, delays, start, round, start + |own|) && own == Repeated(notice, |own|)
    case Attempting(kind, attempt, round, from) =>
      if kind == Notice then
        && OnRound(answers, delays, start, round, from) && OnPost(answers, from, attempt)
        && own == Repeated(notice, from - start + attempt + 1)
      else OnExact(receipt, start, from, attempt, answers, delays)
           && own == Repeated(notice, from - start) + Repeated(exact, attempt + 1)
    case Resting(kind, attempt, round, from) =>
      if kind == Notice then
        && OnRound(answers, delays, start, round, from) && OnPost(answers, from, attempt)
        && own == Repeated(notice, from - start + attempt)
      else OnExact(receipt, start, from, attempt, answers, delays)
           && own == Repeated(notice, from - start) + Repeated(exact, attempt)
  }

  ghost predicate OnExact(receipt: Receipt, start: nat, from: nat, attempt: nat, answers: nat -> Answer, delays: nat) {
    && receipt.exact && ReportTaken(answers, start, delays) && from == start + ReportLength(answers, start, delays)
    && OnPost(answers, from, attempt)
  }

  /** The first `f` receipts are done with, at most the next is being reported, and the rest wait. */
  ghost predicate KeptAt(c: Chain, f: nat, answers: nat -> Answer, delays: nat) {
    && |c.tasks| == |c.receipts| && f <= |c.tasks|
    && (forall i | 0 <= i < f :: c.tasks[i].Finished?) && (forall i | f < i < |c.tasks| :: c.tasks[i].Queued?)
    && var before := OfQueue(answers, c.receipts[..f], delays);
       if f == |c.tasks| then c.wire == before
       else
         && !c.tasks[f].Finished? && |before| <= |c.wire| && c.wire[..|before|] == before
         && Progress(c.tasks[f], c.receipts[f], f, |before|, c.wire[|before|..], answers, delays)
  }

  ghost predicate Kept(c: Chain, answers: nat -> Answer, delays: nat) {
    exists f: nat :: KeptAt(c, f, answers, delays)
  }

  lemma RoundStarts(answers: nat -> Answer, delays: nat, start: nat)
    ensures OnRound(answers, delays, start, 0, start)
  {
  }

  lemma PostStarts(answers: nat -> Answer, from: nat)
    ensures OnPost(answers, from, 0)
  {
  }

  /** An attempt that was not taken, with attempts left. */
  lemma PostGoesOn(answers: nat -> Answer, from: nat, attempt: nat)
    requires OnPost(answers, from, attempt) && attempt + 1 < POST_ATTEMPTS && !answers(from + attempt).Taken?
    ensures OnPost(answers, from, attempt + 1)
  {
  }

  lemma PostEnds(answers: nat -> Answer, from: nat, attempt: nat)
    requires OnPost(answers, from, attempt) && (answers(from + attempt).Taken? || attempt + 1 == POST_ATTEMPTS)
    ensures PostLength(answers, from, POST_ATTEMPTS) == attempt + 1
            && PostAnswer(answers, from) == answers(from + attempt)
  {
  }

  /** A POST that ended the report: its length is what is on the wire. */
  lemma ReportEnds(answers: nat -> Answer, delays: nat, start: nat, round: nat, from: nat, attempt: nat)
    requires OnRound(answers, delays, start, round, from) && OnPost(answers, from, attempt)
    requires answers(from + attempt).Taken?
             || (attempt + 1 == POST_ATTEMPTS && (round == delays || IsDefiniteRefusal(answers(from + attempt))))
    ensures ReportLength(answers, start, delays) == from - start + attempt + 1
    ensures ReportTaken(answers, start, delays) == answers(from + attempt).Taken?
  {
    PostEnds(answers, from, attempt);
    ReportUnfolds(answers, from, delays - round);
    hide PostLength, ReportLength, PostAnswer, OnPost;
  }

  lemma RoundGoesOn(answers: nat -> Answer, delays: nat, start: nat, round: nat, from: nat, attempt: nat)
    requires OnRound(answers, delays, start, round, from) && OnPost(answers, from, attempt)
    requires !answers(from + attempt).Taken? && attempt + 1 == POST_ATTEMPTS
    requires round < delays && !IsDefiniteRefusal(answers(from + attempt))
    ensures OnRound(answers, delays, start, round + 1, from + POST_ATTEMPTS)
  {
    PostEnds(answers, from, attempt);
    ReportUnfolds(answers, from, delays - round);
    hide PostLength, ReportLength, PostAnswer, OnPost;
  }

  lemma OneMoreSent(sent: Sent, n: nat)
    ensures Repeated(sent, n) + [sent] == Repeated(sent, n + 1) && Repeated(sent, 0) == [] && Repeated(sent, 1) == [sent]
  {
  }

  lemma FirstExact(notices: seq<Sent>, exact: Sent, n: nat)
    ensures notices + Repeated(exact, n) + [exact] == notices + Repeated(exact, n + 1)
    ensures notices + Repeated(exact, 0) == notices
  {
    assert Repeated(exact, n) + [exact] == Repeated(exact, n + 1);
    assert Repeated(exact, 0) == [];
  }

  /** A further attempt, wherever the task stood. */
  lemma TryProgresses(
      task: Task, next: Task, receipt: Receipt, i: nat, start: nat, own: seq<Sent>, answers: nat -> Answer, delays: nat)
    requires Progress(task, receipt, i, start, own, answers, delays) && next.Attempting?
    requires task.Queued? ==> next == Attempting(Notice, 0, 0, start)
    requires task.Delaying? ==> next == Attempting(Notice, 0, task.round, start + |own|)
    requires task.Resting? ==> next == Attempting(task.kind, task.attempt, task.round, task.from)
    requires task.Queued? || task.Delaying? || task.Resting?
    ensures Progress(next, receipt, i, start, own + [AttemptOf(receipt, i, next.kind)], answers, delays)
  {
    hide OnRound, OnPost, OnExact, Repeated;
    var notice, exact := Sent(i, Notice, receipt.event), Sent(i, Exact, receipt.exactEvent);
    match task {
      case Queued =>
        RoundStarts(answers, delays, start);
        PostStarts(answers, start);
        OneMoreSent(notice, 0);
        assert own + [notice] == [notice];
      case Delaying(round) =>
        PostStarts(answers, start + |own|);
        OneMoreSent(notice, |own|);
      case Resting(kind, attempt, round, from) =>
        if kind == Notice {
          OneMoreSent(notice, from - start + attempt);
        } else {
          FirstExact(Repeated(notice, from - start), exact, attempt);
        }
    }
  }

  /** The notice was taken: the exact amount follows, or there is none. */
  lemma TakenProgresses(
      task: Task, receipt: Receipt, i: nat, start: nat, own: seq<Sent>, answers: nat -> Answer, delays: nat)
    requires Progress(task, receipt, i, start, own, answers, delays) && task.Attempting?
    requires |own| > 0 && answers(start + |own| - 1).Taken?
    ensures task.kind == Notice && receipt.exact ==>
              Progress(Attempting(Exact, 0, 0, start + |own|), receipt, i, start, own + [AttemptOf(receipt, i, Exact)],
                       answers, delays)
    ensures !(task.kind == Notice && receipt.exact) ==> Progress(Finished, receipt, i, start, own, answers, delays)
  {
    hide OnRound, OnPost, ReportLength, ReportTaken, PostLength, Repeated;
    var notice, exact := Sent(i, Notice, receipt.event), Sent(i, Exact, receipt.exactEvent);
    ReportBounds(answers, start, delays);
    if task.kind == Notice {
      assert |own| == task.from - start + task.attempt + 1;
      ReportEnds(answers, delays, start, task.round, task.from, task.attempt);
      PostStarts(answers, start + |own|);
      FirstExact(own, exact, 0);
      assert own + [] == own;
    } else {
      assert |own| == task.from - start + task.attempt + 1;
      PostEnds(answers, task.from, task.attempt);
    }
  }

  lemma OwnCount(
      task: Task, receipt: Receipt, i: nat, start: nat, own: seq<Sent>, answers: nat -> Answer, delays: nat)
    requires Progress(task, receipt, i, start, own, answers, delays) && task.Attempting?
    ensures task.from >= start && |own| == task.from - start + task.attempt + 1
            && OnPost(answers, task.from, task.attempt)
  {
    ReportBounds(answers, start, delays);
    hide OnPost, ReportLength, ReportTaken, PostLength;
  }

  /** Not taken, with attempts of this POST left. */
  lemma RestProgresses(
      task: Task, receipt: Receipt, i: nat, start: nat, own: seq<Sent>, answers: nat -> Answer, delays: nat)
    requires Progress(task, receipt, i, start, own, answers, delays) && task.Attempting?
    requires |own| > 0 && !answers(start + |own| - 1).Taken? && task.attempt + 1 < POST_ATTEMPTS
    ensures Progress(Resting(task.kind, task.attempt + 1, task.round, task.from), receipt, i, start, own, answers, delays)
  {
    OwnCount(task, receipt, i, start, own, answers, delays);
    PostGoesOn(answers, task.from, task.attempt);
    hide OnRound, OnPost, ReportLength, ReportTaken, PostLength, Repeated;
  }

  /** The POST is over without being taken: the receipt is given up, or waits for another. */
  lemma GivenUpProgresses(
      task: Task, receipt: Receipt, i: nat, start: nat, own: seq<Sent>, answers: nat -> Answer, delays: nat)
    requires Progress(task, receipt, i, start, own, answers, delays) && task.Attempting?
    requires |own| > 0 && !answers(start + |own| - 1).Taken? && task.attempt + 1 >= POST_ATTEMPTS
    requires task.kind == Exact || task.round >= delays || IsDefiniteRefusal(answers(start + |own| - 1))
    ensures Progress(Finished, receipt, i, start, own, answers, delays)
  {
    OwnCount(task, receipt, i, start, own, answers, delays);
    if task.kind == Exact {
      PostEnds(answers, task.from, task.attempt);
    } else {
      assert task.round <= delays;
      ReportEnds(answers, delays, start, task.round, task.from, task.attempt);
      assert own + [] == own;
    }
    hide OnRound, OnPost, ReportLength, ReportTaken, PostLength, Repeated, IsDefiniteRefusal;
  }

  lemma DelayProgresses(
      task: Task, receipt: Receipt, i: nat, start: nat, own: seq<Sent>, answers: nat -> Answer, delays: nat)
    requires Progress(task, receipt, i, start, own, answers, delays) && task.Attempting?
    requires |own| > 0 && !answers(start + |own| - 1).Taken? && task.attempt + 1 >= POST_ATTEMPTS
    requires task.kind == Notice && task.round < delays && !IsDefiniteRefusal(answers(start + |own| - 1))
    ensures Progress(Delaying(task.round + 1), receipt, i, start, own, answers, delays)
  {
    OwnCount(task, receipt, i, start, own, answers, delays);
    hide ReportLength, ReportTaken, PostLength, Repeated, IsDefiniteRefusal;
    assert task.attempt + 1 == POST_ATTEMPTS;
    RoundGoesOn(answers, delays, start, task.round, task.from, task.attempt);
  }

  lemma RefusalProgresses(
      task: Task, receipt: Receipt, i: nat, start: nat, own: seq<Sent>, answers: nat -> Answer, delays: nat)
    requires Progress(task, receipt, i, start, own, answers, delays) && task.Attempting?
    requires |own| > 0 && !answers(start + |own| - 1).Taken?
    ensures Progress(AfterRefusal(task, answers(start + |own| - 1), delays), receipt, i, start, own, answers, delays)
  {
    hide Progress, IsDefiniteRefusal;
    if task.attempt + 1 < POST_ATTEMPTS {
      RestProgresses(task, receipt, i, start, own, answers, delays);
    } else if task.kind == Exact || task.round >= delays || IsDefiniteRefusal(answers(start + |own| - 1)) {
      GivenUpProgresses(task, receipt, i, start, own, answers, delays);
    } else {
      DelayProgresses(task, receipt, i, start, own, answers, delays);
    }
  }

  // Every event keeps it.

  lemma ArrivalKeeps(c: Chain, receipt: Receipt, f: nat, answers: nat -> Answer, delays: nat)
    requires KeptAt(c, f, answers, delays)
    ensures KeptAt(c.(receipts := c.receipts + [receipt], tasks := c.tasks + [Queued]), f, answers, delays)
  {
    var d := c.(receipts := c.receipts + [receipt], tasks := c.tasks + [Queued]);
    assert d.receipts[..f] == c.receipts[..f];
    if f == |c.tasks| {
      assert d.wire[|d.wire|..] == [];
    }
    hide Progress;
    hide OfQueue;
  }

  /** The task that runs is the one behind the finished ones. */
  lemma OnlyOneRuns(c: Chain, f: nat, e: Event, answers: nat -> Answer, delays: nat)
    requires KeptAt(c, f, answers, delays) && Enabled(c, e) && !e.Arrives?
    ensures e.i == f && f < |c.tasks|
  {
    hide Progress, OfQueue;
  }

  lemma MovesOn(c: Chain, d: Chain, f: nat, task: Task, more: seq<Sent>, answers: nat -> Answer, delays: nat)
    requires KeptAt(c, f, answers, delays) && f < |c.tasks| && !task.Finished?
    requires d == c.(tasks := c.tasks[f := task], wire := c.wire + more)
    requires var start := |OfQueue(answers, c.receipts[..f], delays)|;
             Progress(task, c.receipts[f], f, start, c.wire[start..] + more, answers, delays)
    ensures KeptAt(d, f, answers, delays)
  {
    hide Progress, OfQueue;
    var start := |OfQueue(answers, c.receipts[..f], delays)|;
    assert d.wire[start..] == c.wire[start..] + more;
  }

  lemma QueueGrows(receipts: seq<Receipt>, f: nat, wire: seq<Sent>, answers: nat -> Answer, delays: nat)
    requires f < |receipts|
    requires var before := OfQueue(answers, receipts[..f], delays);
             |before| <= |wire| && wire[..|before|] == before
             && wire[|before|..] == OfReceipt(answers, |before|, receipts[f], f, delays)
    ensures wire == OfQueue(answers, receipts[..f + 1], delays)
  {
    var before := OfQueue(answers, receipts[..f], delays);
    assert receipts[..f + 1][..f] == receipts[..f];
    assert wire == before + wire[|before|..];
    hide OfReceipt;
  }

  lemma IsOver(c: Chain, d: Chain, f: nat, answers: nat -> Answer, delays: nat)
    requires KeptAt(c, f, answers, delays) && f < |c.tasks|
    requires d == c.(tasks := c.tasks[f := Finished])
    requires var start := |OfQueue(answers, c.receipts[..f], delays)|;
             Progress(Finished, c.receipts[f], f, start, c.wire[start..], answers, delays)
    ensures KeptAt(d, f + 1, answers, delays)
  {
    hide OfQueue, OfReceipt, Progress;
    FinishedIsReported(c, f, answers, delays);
    QueueGrows(c.receipts, f, c.wire, answers, delays);
    WaitsForNothing(d, f + 1, answers, delays);
  }

  lemma FinishedIsReported(c: Chain, f: nat, answers: nat -> Answer, delays: nat)
    requires KeptAt(c, f, answers, delays) && f < |c.tasks|
    requires var start := |OfQueue(answers, c.receipts[..f], delays)|;
             Progress(Finished, c.receipts[f], f, start, c.wire[start..], answers, delays)
    ensures var before := OfQueue(answers, c.receipts[..f], delays);
            && |before| <= |c.wire| && c.wire[..|before|] == before
            && c.wire[|before|..] == OfReceipt(answers, |before|, c.receipts[f], f, delays)
  {
    hide OfQueue, OfReceipt;
  }

  lemma WaitsForNothing(d: Chain, f: nat, answers: nat -> Answer, delays: nat)
    requires |d.tasks| == |d.receipts| && f <= |d.tasks| && d.wire == OfQueue(answers, d.receipts[..f], delays)
    requires (forall i | 0 <= i < f :: d.tasks[i].Finished?) && (forall i | f <= i < |d.tasks| :: d.tasks[i].Queued?)
    ensures KeptAt(d, f, answers, delays)
  {
    hide OfQueue;
    if f < |d.tasks| {
      assert d.wire[|d.wire|..] == [];
    }
  }

  lemma TakenKeeps(c: Chain, f: nat, answers: nat -> Answer, delays: nat)
    requires KeptAt(c, f, answers, delays) && f < |c.tasks| && c.tasks[f].Attempting?
    requires |c.wire| > 0 && answers(|c.wire| - 1).Taken?
    requires |c.wire| > |OfQueue(answers, c.receipts[..f], delays)|
    ensures Kept(TakeAnswer(c, f, answers(|c.wire| - 1), delays), answers, delays)
  {
    var start, d := |OfQueue(answers, c.receipts[..f], delays)|, TakeAnswer(c, f, answers(|c.wire| - 1), delays);
    var own, task := c.wire[start..], c.tasks[f];
    assert Progress(task, c.receipts[f], f, start, own, answers, delays);
    hide Progress, KeptAt, OfQueue, IsDefiniteRefusal;
    TakenProgresses(task, c.receipts[f], f, start, own, answers, delays);
    if task.kind == Notice && c.receipts[f].exact {
      MovesOn(c, d, f, Attempting(Exact, 0, 0, |c.wire|), [AttemptOf(c.receipts[f], f, Exact)], answers, delays);
    } else {
      IsOver(c, d, f, answers, delays);
    }
  }

  lemma RefusedKeeps(c: Chain, f: nat, answers: nat -> Answer, delays: nat)
    requires KeptAt(c, f, answers, delays) && f < |c.tasks| && c.tasks[f].Attempting?
    requires |c.wire| > 0 && !answers(|c.wire| - 1).Taken?
    requires |c.wire| > |OfQueue(answers, c.receipts[..f], delays)|
    ensures Kept(TakeAnswer(c, f, answers(|c.wire| - 1), delays), answers, delays)
  {
    var start := |OfQueue(answers, c.receipts[..f], delays)|;
    var own, task, answer := c.wire[start..], c.tasks[f], answers(|c.wire| - 1);
    assert Progress(task, c.receipts[f], f, start, own, answers, delays);
    hide Progress, Kept, KeptAt, OfQueue, AfterRefusal, Suspend;
    RefusalProgresses(task, c.receipts[f], f, start, own, answers, delays);
    SuspendKeeps(c, f, AfterRefusal(task, answer, delays), answers, delays);
  }

  lemma SuspendKeeps(c: Chain, f: nat, task: Task, answers: nat -> Answer, delays: nat)
    requires KeptAt(c, f, answers, delays) && f < |c.tasks|
    requires var start := |OfQueue(answers, c.receipts[..f], delays)|;
             Progress(task, c.receipts[f], f, start, c.wire[start..], answers, delays)
    ensures Kept(Suspend(c, f, task), answers, delays)
  {
    var start := |OfQueue(answers, c.receipts[..f], delays)|;
    var own := c.wire[start..];
    assert c.wire + [] == c.wire && own + [] == own;
    hide Progress, KeptAt, OfQueue;
    if task.Finished? {
      IsOver(c, Suspend(c, f, task), f, answers, delays);
    } else {
      MovesOn(c, Suspend(c, f, task), f, task, [], answers, delays);
    }
  }

  lemma SomethingWasSent(c: Chain, f: nat, answers: nat -> Answer, delays: nat)
    requires KeptAt(c, f, answers, delays) && f < |c.tasks| && c.tasks[f].Attempting?
    ensures |c.wire| > |OfQueue(answers, c.receipts[..f], delays)|
  {
    var start := |OfQueue(answers, c.receipts[..f], delays)|;
    hide OfQueue;
    OwnCount(c.tasks[f], c.receipts[f], f, start, c.wire[start..], answers, delays);
    hide Progress;
  }

  lemma AnswerKeeps(c: Chain, f: nat, answers: nat -> Answer, delays: nat)
    requires KeptAt(c, f, answers, delays) && |c.tasks| == |c.receipts| && f < |c.tasks| && c.tasks[f].Attempting?
    ensures Kept(Step(c, Answered(f), answers, delays), answers, delays)
  {
    hide KeptAt, Kept, OfQueue, TakeAnswer;
    SomethingWasSent(c, f, answers, delays);
    assert Step(c, Answered(f), answers, delays) == TakeAnswer(c, f, answers(|c.wire| - 1), delays);
    hide Step;
    if answers(|c.wire| - 1).Taken? {
      TakenKeeps(c, f, answers, delays);
    } else {
      RefusedKeeps(c, f, answers, delays);
    }
  }

  lemma StepKeeps(c: Chain, e: Event, answers: nat -> Answer, delays: nat)
    requires Kept(c, answers, delays) && |c.tasks| == |c.receipts| && Enabled(c, e)
    ensures Kept(Step(c, e, answers, delays), answers, delays)
  {
    var f: nat :| KeptAt(c, f, answers, delays);
    if e.Arrives? {
      ArrivalKeeps(c, e.receipt, f, answers, delays);
    } else {
      OnlyOneRuns(c, f, e, answers, delays);
      if e.Answered? {
        hide KeptAt, Step;
        AnswerKeeps(c, f, answers, delays);
      } else {
        var start, d := |OfQueue(answers, c.receipts[..f], delays)|, Step(c, e, answers, delays);
        var own := c.wire[start..];
        assert Progress(c.tasks[f], c.receipts[f], f, start, own, answers, delays);
        assert c.tasks[f].Queued? ==> own == [];
        hide Progress, KeptAt, OfQueue;
        TryProgresses(c.tasks[f], d.tasks[f], c.receipts[f], f, start, own, answers, delays);
        MovesOn(c, d, f, d.tasks[f], [AttemptOf(c.receipts[f], f, d.tasks[f].kind)], answers, delays);
      }
    }
  }

  lemma {:induction false} EveryChainIsKept(
      run: seq<Chain>, events: seq<Event>, answers: nat -> Answer, delays: nat, n: nat)
    requires IsRun(run, events, answers, delays) && n < |run|
    ensures Kept(run[n], answers, delays)
  {
    hide Kept, Step, Enabled;
    if n == 0 {
      StartsKept(answers, delays);
    } else {
      EveryChainIsKept(run, events, answers, delays, n - 1);
      StepKeeps(run[n - 1], events[n - 1], answers, delays);
    }
  }

  lemma StartsKept(answers: nat -> Answer, delays: nat)
    ensures Kept(Chain([], [], []), answers, delays)
  {
    assert KeptAt(Chain([], [], []), 0, answers, delays);
  }

  // What that means over every run.

  predicate UnderWay(task: Task) {
    task.Attempting? || task.Resting? || task.Delaying?
  }

  /** At most one report is under way at a time, so at most one attempt is outstanding. */
  lemma ReportsNeverOverlap(
      run: seq<Chain>, events: seq<Event>, answers: nat -> Answer, delays: nat, n: nat, i: nat, j: nat)
    requires IsRun(run, events, answers, delays) && n < |run|
    requires i < |run[n].tasks| && j < |run[n].tasks| && UnderWay(run[n].tasks[i]) && UnderWay(run[n].tasks[j])
    ensures i == j
  {
    EveryChainIsKept(run, events, answers, delays, n);
    var f: nat :| KeptAt(run[n], f, answers, delays);
    hide IsRun, Progress, OfQueue;
  }

  /** Whatever became of a receipt, the one behind it may begin; nothing waits for good. */
  lemma NothingIsStuck(run: seq<Chain>, events: seq<Event>, answers: nat -> Answer, delays: nat, n: nat)
    requires IsRun(run, events, answers, delays) && n < |run|
    requires exists i :: 0 <= i < |run[n].tasks| && !run[n].tasks[i].Finished?
    ensures exists e: Event :: !e.Arrives? && Enabled(run[n], e)
    ensures forall i | 0 <= i < |run[n].tasks| - 1 && run[n].tasks[i].Finished? && run[n].tasks[i + 1].Queued? ::
              Enabled(run[n], Begins(i + 1))
  {
    EveryChainIsKept(run, events, answers, delays, n);
    var f: nat :| KeptAt(run[n], f, answers, delays);
    hide IsRun, Progress, OfQueue;
    var task := run[n].tasks[f];
    var e := match task
      case Queued => Begins(f)
      case Attempting(_, _, _, _) => Answered(f)
      case Resting(_, _, _, _) => RestEnds(f)
      case _ => DelayEnds(f);
    assert Enabled(run[n], e);
  }

  /** Once every receipt is done with, the wire is what reporting them one after another puts there. */
  lemma FinishedRunsAreOrdered(run: seq<Chain>, events: seq<Event>, answers: nat -> Answer, delays: nat, n: nat)
    requires IsRun(run, events, answers, delays) && n < |run|
    requires forall i | 0 <= i < |run[n].tasks| :: run[n].tasks[i].Finished?
    ensures run[n].wire == OfQueue(answers, run[n].receipts, delays)
  {
    EveryChainIsKept(run, events, answers, delays, n);
    var f: nat :| KeptAt(run[n], f, answers, delays);
    hide IsRun, Progress, OfQueue;
    assert run[n].receipts[..|run[n].receipts|] == run[n].receipts;
  }

  predicate IsPrefix(a: seq<Sent>, b: seq<Sent>) {
    |a| <= |b| && a == b[..|a|]
  }

  lemma {:induction false} QueuePrefix(receipts: seq<Receipt>, f: nat, answers: nat -> Answer, delays: nat)
    requires f <= |receipts|
    ensures IsPrefix(OfQueue(answers, receipts[..f], delays), OfQueue(answers, receipts, delays))
  {
    hide OfQueue, IsPrefix;
    if f == |receipts| {
      assert receipts[..f] == receipts;
      PrefixOfItself(OfQueue(answers, receipts, delays));
    } else {
      var last := |receipts| - 1;
      QueuePrefix(receipts[..last], f, answers, delays);
      assert receipts[..last][..f] == receipts[..f];
      LastAddsToQueue(receipts, answers, delays);
      PrefixTwice(OfQueue(answers, receipts[..f], delays), OfQueue(answers, receipts[..last], delays),
                  OfQueue(answers, receipts, delays));
    }
  }

  lemma LastAddsToQueue(receipts: seq<Receipt>, answers: nat -> Answer, delays: nat)
    requires receipts != []
    ensures IsPrefix(OfQueue(answers, receipts[..|receipts| - 1], delays), OfQueue(answers, receipts, delays))
  {
    hide OfReceipt;
  }

  lemma PrefixTwice(a: seq<Sent>, b: seq<Sent>, c: seq<Sent>)
    requires IsPrefix(a, b) && IsPrefix(b, c)
    ensures IsPrefix(a, c)
  {
  }

  lemma NoticePrefix(sent: Sent, m: nat, n: nat, more: seq<Sent>)
    requires m <= n
    ensures IsPrefix(Repeated(sent, m), Repeated(sent, n) + more)
  {
  }

  lemma ExactPrefix(notices: seq<Sent>, sent: Sent, m: nat, n: nat)
    requires m <= n
    ensures IsPrefix(notices + Repeated(sent, m), notices + Repeated(sent, n))
  {
    assert (notices + Repeated(sent, n))[..|notices| + m] == notices + Repeated(sent, m);
  }

  /** What a running report has sent so far is the beginning of what it sends. */
  lemma OwnIsPrefix(
      task: Task, receipt: Receipt, i: nat, start: nat, own: seq<Sent>, answers: nat -> Answer, delays: nat)
    requires Progress(task, receipt, i, start, own, answers, delays)
    ensures IsPrefix(own, OfReceipt(answers, start, receipt, i, delays))
  {
    var notice, exact := Sent(i, Notice, receipt.event), Sent(i, Exact, receipt.exactEvent);
    var all := ReportLength(answers, start, delays);
    ReportBounds(answers, start, delays);
    hide ReportLength, PostLength, ReportTaken, Repeated, IsPrefix, OnPost;
    if task.Finished? {
      PrefixOfItself(own);
    } else if UnderWay(task) && !task.Delaying? && task.kind == Exact {
      PostIsLonger(answers, task.from, task.attempt);
      ExactPrefix(Repeated(notice, all), exact, task.attempt + if task.Attempting? then 1 else 0,
                  PostLength(answers, start + all, POST_ATTEMPTS));
    } else {
      if UnderWay(task) && !task.Delaying? {
        PostIsLonger(answers, task.from, task.attempt);
        RoundIsLonger(answers, task.from, delays - task.round);
      }
      NothingYet([], notice);
      OwnNotices(task, receipt, i, start, own, answers, delays);
      NoticePrefix(notice, |own|, all, OfReceipt(answers, start, receipt, i, delays)[all..]);
      assert OfReceipt(answers, start, receipt, i, delays)
          == Repeated(notice, all) + OfReceipt(answers, start, receipt, i, delays)[all..];
    }
  }

  lemma OwnNotices(
      task: Task, receipt: Receipt, i: nat, start: nat, own: seq<Sent>, answers: nat -> Answer, delays: nat)
    requires Progress(task, receipt, i, start, own, answers, delays) && !task.Finished?
    requires task.Attempting? || task.Resting? ==> task.kind == Notice
    ensures own == Repeated(Sent(i, Notice, receipt.event), |own|)
  {
    hide OnRound, OnPost;
  }

  lemma PrefixOfItself(own: seq<Sent>)
    ensures IsPrefix(own, own)
  {
  }

  lemma PostIsLonger(answers: nat -> Answer, from: nat, attempt: nat)
    requires OnPost(answers, from, attempt)
    ensures PostLength(answers, from, POST_ATTEMPTS) >= attempt + 1
  {
  }

  lemma RoundIsLonger(answers: nat -> Answer, from: nat, delays: nat)
    ensures ReportLength(answers, from, delays) >= PostLength(answers, from, POST_ATTEMPTS)
  {
  }

  /**
   * At every moment, however arrivals, answers and delays interleave, the wire is a beginning of what reporting
   * the receipts one after another would put there: this chain and the plain loop are the same thing.
   */
  lemma ChainFollowsTheLoop(run: seq<Chain>, events: seq<Event>, answers: nat -> Answer, delays: nat, n: nat)
    requires IsRun(run, events, answers, delays) && n < |run|
    ensures IsPrefix(run[n].wire, OfQueue(answers, run[n].receipts, delays))
  {
    EveryChainIsKept(run, events, answers, delays, n);
    var c := run[n];
    var f: nat :| KeptAt(c, f, answers, delays);
    hide IsRun;
    if f == |c.tasks| {
      assert c.receipts[..f] == c.receipts;
    } else {
      PartIsPrefix(c, f, answers, delays);
      QueuePrefix(c.receipts, f + 1, answers, delays);
    }
    hide KeptAt, OfQueue;
  }

  lemma PartIsPrefix(c: Chain, f: nat, answers: nat -> Answer, delays: nat)
    requires KeptAt(c, f, answers, delays) && f < |c.tasks|
    ensures IsPrefix(c.wire, OfQueue(answers, c.receipts[..f + 1], delays))
  {
    var before := OfQueue(answers, c.receipts[..f], delays);
    var all := before + OfReceipt(answers, |before|, c.receipts[f], f, delays);
    assert c.receipts[..f + 1][..f] == c.receipts[..f];
    assert OfQueue(answers, c.receipts[..f + 1], delays) == all;
    OwnIsPrefix(c.tasks[f], c.receipts[f], f, |before|, c.wire[|before|..], answers, delays);
    hide OfQueue, OfReceipt, Progress;
    assert c.wire == before + c.wire[|before|..];
  }

  /** So the gateway sees receipts in the order they arrived, each under event ids of its own. */
  lemma WireIsOrderly(run: seq<Chain>, events: seq<Event>, answers: nat -> Answer, delays: nat, n: nat)
    requires IsRun(run, events, answers, delays) && n < |run|
    ensures Orderly(run[n].wire, run[n].receipts)
  {
    ChainFollowsTheLoop(run, events, answers, delays, n);
    QueueIsOrdered(answers, run[n].receipts, delays);
    PrefixIsOrderly(run[n].wire, OfQueue(answers, run[n].receipts, delays), run[n].receipts);
    hide IsRun, Orderly, OfQueue, IsPrefix;
  }

  lemma PrefixIsOrderly(a: seq<Sent>, b: seq<Sent>, receipts: seq<Receipt>)
    requires IsPrefix(a, b) && Orderly(b, receipts)
    ensures Orderly(a, receipts)
  {
    assert forall i | 0 <= i < |a| :: a[i] == b[i];
  }

  /** A finished run has tried every receipt, and none more often than its delays allow. */
  lemma EveryReceiptIsReported(
      run: seq<Chain>, events: seq<Event>, answers: nat -> Answer, delays: nat, n: nat, i: nat)
    requires IsRun(run, events, answers, delays) && n < |run| && i < |run[n].receipts|
    requires forall k | 0 <= k < |run[n].tasks| :: run[n].tasks[k].Finished?
    ensures 1 <= NoticesOf(run[n].wire, i) <= (delays + 1) * POST_ATTEMPTS
  {
    FinishedRunsAreOrdered(run, events, answers, delays, n);
    EveryReceiptIsTried(answers, run[n].receipts, delays, i);
    hide IsRun, OfQueue, NoticesOf;
  }

  // The chain comes to rest.

  function Minus(a: nat, b: nat): nat {
    if a > b then a - b else 0
  }

  /** How many more steps a task can take. */
  function Left(task: Task, delays: nat): nat {
    match task
    case Finished => 0
    case Queued => 6 * delays + 12
    case Delaying(round) => 6 * Minus(delays, round) + 12
    case Attempting(kind, attempt, round, _) =>
      1 + 2 * Minus(2, attempt) + if kind == Notice then 6 * Minus(delays, round) + 6 else 0
    case Resting(kind, attempt, round, _) =>
      2 + 2 * Minus(2, attempt) + if kind == Notice then 6 * Minus(delays, round) + 6 else 0
  }

  function AllLeft(tasks: seq<Task>, delays: nat): nat {
    if tasks == [] then 0 else AllLeft(tasks[..|tasks| - 1], delays) + Left(tasks[|tasks| - 1], delays)
  }

  lemma {:induction false} OneLess(tasks: seq<Task>, i: nat, task: Task, delays: nat)
    requires i < |tasks|
    ensures AllLeft(tasks[i := task], delays) + Left(tasks[i], delays) == AllLeft(tasks, delays) + Left(task, delays)
  {
    var n := |tasks| - 1;
    if i == n {
      assert tasks[i := task][..n] == tasks[..n];
    } else {
      OneLess(tasks[..n], i, task, delays);
      assert tasks[i := task][..n] == tasks[..n][i := task];
    }
    hide Left;
  }

  lemma AnswersSpend(c: Chain, i: nat, answer: Answer, delays: nat)
    requires i < |c.tasks| == |c.receipts| && c.tasks[i].Attempting?
    ensures |TakeAnswer(c, i, answer, delays).tasks| == |c.tasks|
    ensures Left(TakeAnswer(c, i, answer, delays).tasks[i], delays) < Left(c.tasks[i], delays)
  {
    hide IsDefiniteRefusal;
    if !answer.Taken? {
      RefusalsSpend(c.tasks[i], answer, delays);
      hide Left, AfterRefusal;
    }
  }

  lemma RefusalsSpend(task: Task, answer: Answer, delays: nat)
    requires task.Attempting?
    ensures Left(AfterRefusal(task, answer, delays), delays) < Left(task, delays)
  {
    hide IsDefiniteRefusal;
  }

  lemma StepsAreSpent(c: Chain, e: Event, answers: nat -> Answer, delays: nat)
    requires Enabled(c, e) && |c.tasks| == |c.receipts|
    ensures var d := Step(c, e, answers, delays);
            if e.Arrives? then AllLeft(d.tasks, delays) == AllLeft(c.tasks, delays) + 6 * delays + 12
            else AllLeft(d.tasks, delays) < AllLeft(c.tasks, delays)
  {
    var d := Step(c, e, answers, delays);
    if e.Arrives? {
      assert d.tasks[..|c.tasks|] == c.tasks;
    } else {
      if e.Answered? {
        AnswersSpend(c, e.i, answers(if |c.wire| > 0 then |c.wire| - 1 else 0), delays);
      }
      assert d.tasks == c.tasks[e.i := d.tasks[e.i]];
      OneLess(c.tasks, e.i, d.tasks[e.i], delays);
    }
    hide AllLeft, TakeAnswer;
  }

  function Arrivals(events: seq<Event>): nat {
    if events == [] then 0
    else Arrivals(events[..|events| - 1]) + if events[|events| - 1].Arrives? then 1 else 0
  }

  /** The queue comes to rest: each receipt costs a bounded number of steps, whatever the gateway answers. */
  lemma {:induction false} RunsAreBounded(run: seq<Chain>, events: seq<Event>, answers: nat -> Answer, delays: nat)
    requires IsRun(run, events, answers, delays)
    ensures |events| + AllLeft(run[|events|].tasks, delays) <= (6 * delays + 13) * Arrivals(events)
  {
    if events != [] {
      var n := |events| - 1;
      RunShortens(run, events, answers, delays);
      hide IsRun, Step, Enabled, AllLeft, Arrivals;
      RunsAreBounded(run[..n + 1], events[..n], answers, delays);
      StepsAreSpent(run[n], events[n], answers, delays);
      ArrivalsCount(events);
      Spend(n, AllLeft(run[n].tasks, delays), AllLeft(run[n + 1].tasks, delays), Arrivals(events[..n]),
            Arrivals(events), 6 * delays + 13, events[n].Arrives?);
    }
  }

  lemma RunShortens(run: seq<Chain>, events: seq<Event>, answers: nat -> Answer, delays: nat)
    requires IsRun(run, events, answers, delays) && events != []
    ensures var n := |events| - 1;
            && |run| == n + 2 && IsRun(run[..n + 1], events[..n], answers, delays)
            && Enabled(run[n], events[n]) && |run[n].tasks| == |run[n].receipts|
            && run[n + 1] == Step(run[n], events[n], answers, delays)
  {
    hide Step, Enabled;
  }

  lemma ArrivalsCount(events: seq<Event>)
    requires events != []
    ensures Arrivals(events) == Arrivals(events[..|events| - 1]) + if events[|events| - 1].Arrives? then 1 else 0
  {
  }

  lemma Spend(n: nat, left: nat, after: nat, arrived: nat, arrivedAfter: nat, each: nat, arrives: bool)
    requires n + left <= each * arrived && arrivedAfter == arrived + if arrives then 1 else 0
    requires if arrives then after == left + each - 1 else after < left
    ensures n + 1 + after <= each * arrivedAfter
  {
    assert each * (arrived + 1) == each * arrived + each;
  }

  lemma AttemptWasSent(c: Chain, i: nat, answers: nat -> Answer, delays: nat)
    requires Kept(c, answers, delays) && Enabled(c, Answered(i))
    ensures |c.wire| > 0
  {
    var f: nat :| KeptAt(c, f, answers, delays);
    OnlyOneRuns(c, f, Answered(i), answers, delays);
    hide KeptAt;
    SomethingWasSent(c, f, answers, delays);
  }

  /** The queue as the object it is; `answers` is what the gateway will say to each attempt in turn. */
  class PaymentReports {
    const answers: nat -> Answer
    const delays: nat
    var receipts: seq<Receipt>
    var tasks: seq<Task>
    var wire: seq<Sent>

    ghost function View(): Chain
      reads this
    {
      Chain(receipts, tasks, wire)
    }

    ghost predicate Valid()
      reads this
    {
      |tasks| == |receipts| && Kept(View(), answers, delays)
    }

    constructor (answers: nat -> Answer, delays: nat)
      ensures Valid() && View() == Chain([], [], []) && this.answers == answers && this.delays == delays
    {
      this.answers, this.delays := answers, delays;
      receipts, tasks, wire := [], [], [];
      new;
      StartsKept(answers, delays);
    }

    /** queuePaymentReport: whatever is under way, the receipt joins the end of the chain. */
    method Queue(receipt: Receipt)
      requires Valid()
      modifies this
      ensures Valid() && View() == Step(old(View()), Arrives(receipt), answers, delays)
    {
      ghost var c := View();
      receipts := receipts + [receipt];
      tasks := tasks + [Queued];
      hide Kept;
      StepKeeps(c, Arrives(receipt), answers, delays);
    }

    method Begin(i: nat)
      requires Valid() && Enabled(View(), Begins(i))
      modifies this
      ensures Valid() && View() == Step(old(View()), Begins(i), answers, delays)
    {
      ghost var c := View();
      Attempt(i, Notice, 0, 0, |wire|);
      hide Kept;
      StepKeeps(c, Begins(i), answers, delays);
    }

    method Attempt(i: nat, kind: Kind, attempt: nat, round: nat, from: nat)
      requires i < |tasks| == |receipts|
      modifies this
      ensures View() == Try(old(View()), i, kind, attempt, round, from)
    {
      tasks := tasks[i := Attempting(kind, attempt, round, from)];
      wire := wire + [AttemptOf(receipts[i], i, kind)];
    }

    /** The attempt came to something. */
    method Answer(i: nat)
      requires Valid() && Enabled(View(), Answered(i))
      modifies this
      ensures Valid() && View() == Step(old(View()), Answered(i), answers, delays)
    {
      ghost var c := View();
      hide Kept, TakeAnswer;
      AttemptWasSent(c, i, answers, delays);
      SeeAnswer(i, answers(|wire| - 1));
      StepKeeps(c, Answered(i), answers, delays);
    }

    method SeeAnswer(i: nat, answer: Receipts.Answer)
      requires i < |tasks| == |receipts| && tasks[i].Attempting?
      modifies this
      ensures View() == TakeAnswer(old(View()), i, answer, delays) && |tasks| == |receipts|
    {
      hide AfterRefusal;
      if !answer.Taken? {
        WaitOrGiveUp(i, answer);
      } else if tasks[i].kind == Notice && receipts[i].exact {
        Attempt(i, Exact, 0, 0, |wire|);
      } else {
        tasks := tasks[i := Finished];
      }
    }

    method WaitOrGiveUp(i: nat, answer: Receipts.Answer)
      requires i < |tasks| == |receipts| && tasks[i].Attempting?
      modifies this
      ensures View() == Suspend(old(View()), i, AfterRefusal(old(tasks)[i], answer, delays))
    {
      hide IsDefiniteRefusal;
      var task := tasks[i];
      if task.attempt + 1 < POST_ATTEMPTS {
        tasks := tasks[i := Resting(task.kind, task.attempt + 1, task.round, task.from)];
      } else if task.kind == Exact || task.round >= delays || IsDefiniteRefusal(answer) {
        tasks := tasks[i := Finished];
      } else {
        tasks := tasks[i := Delaying(task.round + 1)];
      }
    }

    method EndRest(i: nat)
      requires Valid() && Enabled(View(), RestEnds(i))
      modifies this
      ensures Valid() && View() == Step(old(View()), RestEnds(i), answers, delays)
    {
      ghost var c := View();
      Attempt(i, tasks[i].kind, tasks[i].attempt, tasks[i].round, tasks[i].from);
      hide Kept;
      StepKeeps(c, RestEnds(i), answers, delays);
    }

    method EndDelay(i: nat)
      requires Valid() && Enabled(View(), DelayEnds(i))
      modifies this
      ensures Valid() && View() == Step(old(View()), DelayEnds(i), answers, delays)
    {
      ghost var c := View();
      Attempt(i, Notice, 0, tasks[i].round, |wire|);
      hide Kept;
      StepKeeps(c, DelayEnds(i), answers, delays);
    }
  }
}
