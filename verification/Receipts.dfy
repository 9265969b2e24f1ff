/**
 * Reporting payment receipts: the signed POST with its three attempts, the minutes of retrying around
 * it, and the queue that keeps receipts in the order they arrived.
 */
module Receipts {

  type EventId = nat

  /** What one attempt comes to: taken, answered with an error status, or never answered. */
  datatype Answer = Taken | Status(code: int) | Silence

  datatype Kind = Notice | Exact

  /** One attempt on the wire, and which receipt it is for. */
  datatype Sent = Sent(receipt: nat, kind: Kind, event: EventId)

  /** A receipt as it arrived: its event id, and whether it carries an exact amount to report as well. */
  datatype Receipt = Receipt(event: EventId, exact: bool, exactEvent: EventId)

  const POST_ATTEMPTS: nat := 3

  /** isDefiniteRefusal: an error status that another attempt would meet again. */
  predicate IsDefiniteRefusal(answer: Answer) {
    answer.Status? && 400 <= answer.code < 500 && answer.code != 408 && answer.code != 429
  }

  // What happens, given the answers attempt by attempt.

  /** Attempts of one POST from attempt `n` on: it stops at the first that is taken. */
  function PostLength(answers: nat -> Answer, n: nat, left: nat): (length: nat)
    ensures left > 0 ==> 1 <= length <= left
    decreases left
  {
    if left == 0 then 0
    else if answers(n).Taken? || left == 1 then 1
    else 1 + PostLength(answers, n + 1, left - 1)
  }

  function PostAnswer(answers: nat -> Answer, n: nat): Answer {
    answers(n + PostLength(answers, n, POST_ATTEMPTS) - 1)
  }

  /** Attempts of one report: posts until one is taken, one is definitely refused, or no delay is left. */
  function ReportLength(answers: nat -> Answer, n: nat, delays: nat): nat
    decreases delays
  {
    var length, answer := PostLength(answers, n, POST_ATTEMPTS), PostAnswer(answers, n);
    if answer.Taken? || delays == 0 || IsDefiniteRefusal(answer) then length
    else length + ReportLength(answers, n + length, delays - 1)
  }

  predicate ReportTaken(answers: nat -> Answer, n: nat, delays: nat) {
    answers(n + ReportLength(answers, n, delays) - 1).Taken?
  }

  function Repeated(sent: Sent, times: nat): (all: seq<Sent>)
    ensures |all| == times
  {
    seq(times, _ => sent)
  }

  /** What one receipt puts on the wire: its notice, and the exact amount once the notice was taken. */
  function OfReceipt(answers: nat -> Answer, n: nat, receipt: Receipt, index: nat, delays: nat): seq<Sent> {
    var notices := ReportLength(answers, n, delays);
    Repeated(Sent(index, Notice, receipt.event), notices)
    + if receipt.exact && notices > 0 && ReportTaken(answers, n, delays)
      then Repeated(Sent(index, Exact, receipt.exactEvent), PostLength(answers, n + notices, POST_ATTEMPTS)) else []
  }

  function OfQueue(answers: nat -> Answer, receipts: seq<Receipt>, delays: nat): seq<Sent> {
    if receipts == [] then []
    else
      var last := |receipts| - 1;
      var before := OfQueue(answers, receipts[..last], delays);
      before + OfReceipt(answers, |before|, receipts[last], last, delays)
  }

  class Reporter {
    const answers: nat -> Answer
    const delays: nat
    var wire: seq<Sent>

    constructor (answers: nat -> Answer, delays: nat)
      ensures this.answers == answers && this.delays == delays && wire == []
    {
      this.answers, this.delays, wire := answers, delays, [];
    }

    /** The signed POST: up to three attempts of the same body. */
    method Post(sent: Sent) returns (answer: Answer)
      modifies this
      ensures wire == old(wire) + Repeated(sent, PostLength(answers, |old(wire)|, POST_ATTEMPTS))
      ensures answer == PostAnswer(answers, |old(wire)|)
    {
      answer := Silence;
      ghost var start := |wire|;
      for attempt := 0 to POST_ATTEMPTS
        invariant wire == old(wire) + Repeated(sent, attempt)
        invariant PostLength(answers, start, POST_ATTEMPTS)
               == attempt + PostLength(answers, start + attempt, POST_ATTEMPTS - attempt)
        invariant attempt > 0 ==> answer == answers(start + attempt - 1)
      {
        answer := answers(|wire|);
        wire := wire + [sent];
        assert wire == old(wire) + Repeated(sent, attempt + 1);
        if answer.Taken? {
          return;
        }
      }
    }

    /** retryReport around the POST. */
    method Report(sent: Sent) returns (answer: Answer)
      modifies this
      ensures wire == old(wire) + Repeated(sent, ReportLength(answers, |old(wire)|, delays))
      ensures answer.Taken? <==> ReportTaken(answers, |old(wire)|, delays)
    {
      hide ReportLength, PostLength, PostAnswer, Repeated, IsDefiniteRefusal;
      var attempt := 0;
      ghost var start := |wire|;
      ghost var done: nat := 0;
      NothingYet(wire, sent);
      while true
        invariant attempt <= delays && wire == old(wire) + Repeated(sent, done)
        invariant ReportLength(answers, start, delays)
               == done + ReportLength(answers, start + done, delays - attempt)
        decreases delays - attempt
      {
        ghost var length := PostLength(answers, start + done, POST_ATTEMPTS);
        ReportUnfolds(answers, start + done, delays - attempt);
        answer := Post(sent);
        RepeatedAdds(old(wire), sent, done, length);
        done := done + length;
        if answer.Taken? || attempt == delays || IsDefiniteRefusal(answer) {
          return;
        }
        attempt := attempt + 1;
      }
    }

    method ReportReceipt(receipt: Receipt, index: nat)
      modifies this
      ensures wire == old(wire) + OfReceipt(answers, |old(wire)|, receipt, index, delays)
    {
      ghost var before := wire;
      ghost var noticed := ReportLength(answers, |wire|, delays);
      ReportBounds(answers, |wire|, delays);
      hide ReportLength, ReportTaken, PostLength, Repeated;
      var answer := Report(Sent(index, Notice, receipt.event));
      ghost var notices := Repeated(Sent(index, Notice, receipt.event), noticed);
      assert wire == before + notices && |wire| == |before| + noticed;
      if answer.Taken? && receipt.exact {
        var _ := Post(Sent(index, Exact, receipt.exactEvent));
        Regroup(before, notices, Repeated(Sent(index, Exact, receipt.exactEvent),
                                          PostLength(answers, |before| + noticed, POST_ATTEMPTS)));
      } else {
        Regroup(before, notices, []);
      }
    }
  }

  lemma Regroup(a: seq<Sent>, b: seq<Sent>, c: seq<Sent>)
    ensures a + b + c == a + (b + c) && a + b + [] == a + b
  {
  }

  // What that means.

  lemma NothingYet(wire: seq<Sent>, sent: Sent)
    ensures wire == wire + Repeated(sent, 0)
  {
  }

  lemma ReportUnfolds(answers: nat -> Answer, n: nat, delays: nat)
    ensures var length, answer := PostLength(answers, n, POST_ATTEMPTS), PostAnswer(answers, n);
            && (answer.Taken? || delays == 0 || IsDefiniteRefusal(answer) ==> ReportLength(answers, n, delays) == length)
            && (!(answer.Taken? || delays == 0 || IsDefiniteRefusal(answer)) ==>
                  ReportLength(answers, n, delays) == length + ReportLength(answers, n + length, delays - 1))
            && answer == answers(n + length - 1) && length >= 1
  {
  }

  lemma RepeatedAdds(before: seq<Sent>, sent: Sent, m: nat, n: nat)
    ensures before + Repeated(sent, m) + Repeated(sent, n) == before + Repeated(sent, m + n)
  {
    assert Repeated(sent, m) + Repeated(sent, n) == Repeated(sent, m + n);
  }

  /** Every report makes at least one attempt and at most three for each post. */
  lemma {:induction false} ReportBounds(answers: nat -> Answer, n: nat, delays: nat)
    ensures 1 <= ReportLength(answers, n, delays) <= (delays + 1) * POST_ATTEMPTS
    decreases delays
  {
    var length, answer := PostLength(answers, n, POST_ATTEMPTS), PostAnswer(answers, n);
    if !(answer.Taken? || delays == 0 || IsDefiniteRefusal(answer)) {
      ReportBounds(answers, n + length, delays - 1);
    }
  }

  /** Only the last attempt of a report can be taken: once it is, nothing is sent again. */
  lemma {:induction false} NothingIsSentAgain(answers: nat -> Answer, n: nat, delays: nat, i: nat)
    requires i + 1 < ReportLength(answers, n, delays)
    ensures !answers(n + i).Taken?
    decreases delays
  {
    var length, answer := PostLength(answers, n, POST_ATTEMPTS), PostAnswer(answers, n);
    if i + 1 < length {
      PostStopsWhenTaken(answers, n, POST_ATTEMPTS, i);
    } else if i + 1 > length {
      NothingIsSentAgain(answers, n + length, delays - 1, i - length);
    }
  }

  lemma {:induction false} PostStopsWhenTaken(answers: nat -> Answer, n: nat, left: nat, i: nat)
    requires i + 1 < PostLength(answers, n, left)
    ensures !answers(n + i).Taken?
    decreases left
  {
    if i > 0 {
      PostStopsWhenTaken(answers, n + 1, left - 1, i - 1);
    }
  }

  /** A definite refusal costs its own receipt at most one post's attempts. */
  lemma RefusalEndsTheReport(answers: nat -> Answer, n: nat, delays: nat)
    requires IsDefiniteRefusal(PostAnswer(answers, n))
    ensures ReportLength(answers, n, delays) == PostLength(answers, n, POST_ATTEMPTS) == POST_ATTEMPTS
    ensures !ReportTaken(answers, n, delays)
  {
    assert PostAnswer(answers, n) == answers(n + PostLength(answers, n, POST_ATTEMPTS) - 1);
  }

  /** Receipts in the order they arrived, each attempt under its own receipt's event. */
  predicate Orderly(wire: seq<Sent>, receipts: seq<Receipt>) {
    && (forall i | 0 <= i < |wire| :: OfOne(wire[i], receipts))
    && (forall i, j | 0 <= i < j < |wire| :: wire[i].receipt <= wire[j].receipt)
  }

  predicate OfOne(sent: Sent, receipts: seq<Receipt>) {
    sent.receipt < |receipts|
    && sent.event == if sent.kind == Notice then receipts[sent.receipt].event else receipts[sent.receipt].exactEvent
  }

  /** Receipts reach the gateway in the order they arrived, without overlap, under one event id each. */
  lemma {:induction false} QueueIsOrdered(answers: nat -> Answer, receipts: seq<Receipt>, delays: nat)
    ensures Orderly(OfQueue(answers, receipts, delays), receipts)
  {
    if receipts != [] {
      var last := |receipts| - 1;
      QueueIsOrdered(answers, receipts[..last], delays);
      var before := OfQueue(answers, receipts[..last], delays);
      OfReceiptIsItsOwn(answers, |before|, receipts[last], last, delays);
      OrderlyGrows(before, OfReceipt(answers, |before|, receipts[last], last, delays), receipts);
    }
  }

  lemma OrderlyGrows(before: seq<Sent>, own: seq<Sent>, receipts: seq<Receipt>)
    requires receipts != [] && Orderly(before, receipts[..|receipts| - 1])
    requires IsOwn(own, receipts[|receipts| - 1], |receipts| - 1)
    ensures Orderly(before + own, receipts)
  {
    var all, last := before + own, |receipts| - 1;
    forall i | 0 <= i < |all|
      ensures OfOne(all[i], receipts)
      ensures if i < |before| then all[i].receipt < last else all[i].receipt == last
    {
      if i < |before| {
        assert OfOne(before[i], receipts[..last]);
      } else {
        assert all[i] == own[i - |before|];
      }
    }
    assert forall i | 0 <= i < |before| :: all[i] == before[i];
  }

  predicate IsOwn(wire: seq<Sent>, receipt: Receipt, index: nat) {
    && |wire| >= 1 && wire[0] == Sent(index, Notice, receipt.event)
    && forall i | 0 <= i < |wire| ::
         wire[i] == Sent(index, Notice, receipt.event) || wire[i] == Sent(index, Exact, receipt.exactEvent)
  }

  lemma OfReceiptIsItsOwn(answers: nat -> Answer, n: nat, receipt: Receipt, index: nat, delays: nat)
    ensures IsOwn(OfReceipt(answers, n, receipt, index, delays), receipt, index)
  {
    ReportBounds(answers, n, delays);
  }

  /** Attempts of one receipt's notice in a stretch of the wire. */
  function NoticesOf(wire: seq<Sent>, receipt: nat): nat {
    if wire == [] then 0
    else
      var last := wire[|wire| - 1];
      NoticesOf(wire[..|wire| - 1], receipt) + if last.receipt == receipt && last.kind == Notice then 1 else 0
  }

  lemma {:induction false} NoticesAdd(a: seq<Sent>, b: seq<Sent>, receipt: nat)
    ensures NoticesOf(a + b, receipt) == NoticesOf(a, receipt) + NoticesOf(b, receipt)
  {
    if b == [] {
      assert a + b == a;
    } else {
      assert (a + b)[..|a + b| - 1] == a + b[..|b| - 1];
      NoticesAdd(a, b[..|b| - 1], receipt);
    }
  }

  lemma {:induction false} NoticesRepeat(sent: Sent, times: nat, receipt: nat)
    ensures NoticesOf(Repeated(sent, times), receipt) == if sent.receipt == receipt
            && sent.kind == Notice then times else 0
  {
    if times > 0 {
      assert Repeated(sent, times)[..times - 1] == Repeated(sent, times - 1);
      NoticesRepeat(sent, times - 1, receipt);
    }
  }

  lemma NoticesOfReceipt(answers: nat -> Answer, n: nat, receipt: Receipt, index: nat, delays: nat, asked: nat)
    ensures NoticesOf(OfReceipt(answers, n, receipt, index, delays), asked)
         == if asked == index then ReportLength(answers, n, delays) else 0
  {
    var notices := ReportLength(answers, n, delays);
    var first := Repeated(Sent(index, Notice, receipt.event), notices);
    var length := PostLength(answers, n + notices, POST_ATTEMPTS);
    NoticesRepeat(Sent(index, Notice, receipt.event), notices, asked);
    NoticesRepeat(Sent(index, Exact, receipt.exactEvent), length, asked);
    NoticesAdd(first, Repeated(Sent(index, Exact, receipt.exactEvent), length), asked);
    assert first + [] == first;
  }

  /**
   * Every receipt reaches the gateway, after all before it and before all behind it, under one event id,
   * in at least one and at most three attempts for each delay and the first: none blocks the next.
   */
  lemma {:induction false} EveryReceiptIsTried(answers: nat -> Answer, receipts: seq<Receipt>, delays: nat, index: nat)
    requires index < |receipts|
    ensures 1 <= NoticesOf(OfQueue(answers, receipts, delays), index) <= (delays + 1) * POST_ATTEMPTS
  {
    var last := |receipts| - 1;
    var before := OfQueue(answers, receipts[..last], delays);
    NoticesAdd(before, OfReceipt(answers, |before|, receipts[last], last, delays), index);
    NoticesOfReceipt(answers, |before|, receipts[last], last, delays, index);
    if index < last {
      EveryReceiptIsTried(answers, receipts[..last], delays, index);
    } else {
      QueueIsOrdered(answers, receipts[..last], delays);
      assert forall i | 0 <= i < |before| :: OfOne(before[i], receipts[..last]);
      NoneYet(before, index);
      ReportBounds(answers, |before|, delays);
    }
  }

  lemma {:induction false} NoneYet(wire: seq<Sent>, receipt: nat)
    requires forall i | 0 <= i < |wire| :: wire[i].receipt < receipt
    ensures NoticesOf(wire, receipt) == 0
  {
    if wire != [] {
      NoneYet(wire[..|wire| - 1], receipt);
    }
  }
}
