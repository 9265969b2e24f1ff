/** The automatic verdict on an unconfirmed payout, over every run: exactly when it is wrong. */
module PayoutBalances {
  import opened BalanceEvidence
  import opened Decimal
  import opened Gateway
  import opened MoneyReading
  import opened Options
  import opened PayoutEndings
  import opened PayoutGatewaySteps
  import opened PayoutInvariant
  import opened PayoutReviews
  import opened PayoutSafety
  import opened PayoutSystem
  import opened PayoutWaits
  import opened WorkerModel

  /** Before an operator as unconfirmed, with every /pay of it decided by the server. */
  ghost predicate Judgeable(s: State, id: Id) {
    && id in s.tables.rows && s.tables.rows[id].status == ManualReview && s.tables.rows[id].error == Some(Unconfirmed)
    && id in s.tables.jobs && IsAmountText(s.tables.jobs[id].amount) && Value(s.tables.jobs[id].amount) > 0
    && AllDecided(s, id)
  }

  /** The gateway once it has settled it, from a balance that unbooked money has moved by `drift`. */
  ghost function Judged(s: State, id: Id, tracked: int, drift: int): State {
    With(s, Gateway.SettleFromBalance(s.tables, id, VerdictFor(s, id, tracked, drift)))
  }

  ghost predicate Misled(s: State, id: Id, drift: int)
    requires Judgeable(s, id)
  {
    Imitates(drift, Value(s.tables.jobs[id].amount), HasMoved(s, id))
  }

  lemma VerdictMisleads(s: State, id: Id, tracked: int, drift: int)
    requires Judgeable(s, id)
    ensures var wrong := if HasMoved(s, id) then NotPaidInGame else PaidInGame;
            VerdictFor(s, id, tracked, drift) == wrong <==> Misled(s, id, drift)
  {
    hide HasMoved, AllDecided, Judge, Value, Imitates;
    WrongOnlyIfDriftImitatesThePayout(tracked, Value(s.tables.jobs[id].amount), HasMoved(s, id), drift);
  }

  lemma VerdictSettles(s: State, id: Id, tracked: int, drift: int)
    requires Judgeable(s, id) && Parked(JobAt(s.tables, id))
    ensures var verdict, t := VerdictFor(s, id, tracked, drift), Judged(s, id, tracked, drift);
            && id in t.tables.rows && HasMoved(t, id) == HasMoved(s, id)
            && (t.tables.rows[id].status == Refunded <==> verdict == NotPaidInGame)
            && (t.tables.rows[id].status == Paid <==> verdict == PaidInGame)
            && (verdict == NotPaidInGame ==> Returned(t.tables.rows[id]) && Ended(t.tables, id))
  {
    hide HasMoved, VerdictFor, AllDecided, IsAmountText, Value;
    var t := Judged(s, id, tracked, drift);
    SameMoney(s, t);
    if VerdictFor(s, id, tracked, drift) == NotPaidInGame {
      assert BalanceShowsNotPaid in t.tables.rows[id].refunds;
    }
  }

  lemma FairStep(s: State, id: Id, tracked: int, drift: int)
    requires Sound(s) && Judgeable(s, id) && !Misled(s, id, drift)
    ensures Sound(Judged(s, id, tracked, drift))
  {
    hide Sound, AllDecided, IsAmountText, Imitates, Value, VerdictFor, HasMoved, SettleFromBalance;
    var e := AtGateway(BalanceJudged(id, tracked, drift), 0);
    assert Enabled(s, e) && Apply(s, e) == Judged(s, id, tracked, drift);
    hide Enabled, Apply, Judged;
    StepKeepsSound(s, e);
  }

  /**
   * However much money nobody booked has come or gone: a payout settled from the balance is refunded although it
   * was paid, or is paid in any continuation, if and only if it was paid and the unbooked money hides that; it is
   * marked paid although nothing moved if and only if nothing moved and the unbooked money looks like it.
   */
  lemma BalanceMisleadsExactly(run: seq<State>, events: seq<Event>, n: nat, id: Id, tracked: int, drift: int)
    requires IsRun(run, events) && n < |run| && Judgeable(run[n], id)
    ensures var s, t := run[n], Judged(run[n], id, tracked, drift);
            && id in t.tables.rows
            && (t.tables.rows[id].status == Refunded && !NeverMoves(t, id) <==> HasMoved(s, id) && Misled(s, id, drift))
            && (t.tables.rows[id].status == Paid && !HasMoved(t, id) <==> !HasMoved(s, id) && Misled(s, id, drift))
  {
    hide IsRun, Sound, HasMoved, VerdictFor, Misled, Judged, NeverMoves, Judgeable;
    EveryStateIsSound(run, events, n);
    SettledRight(run[n], id, tracked, drift);
  }

  lemma SettledRight(s: State, id: Id, tracked: int, drift: int)
    requires Sound(s) && Judgeable(s, id)
    ensures var t := Judged(s, id, tracked, drift);
            && id in t.tables.rows
            && (t.tables.rows[id].status == Refunded && !NeverMoves(t, id) <==> HasMoved(s, id) && Misled(s, id, drift))
            && (t.tables.rows[id].status == Paid && !HasMoved(t, id) <==> !HasMoved(s, id) && Misled(s, id, drift))
  {
    hide Sound, HasMoved, VerdictFor, Misled, Judged, NeverMoves, AllDecided, Value, IsAmountText, Returned, Ended,
      Parked;
    var t := Judged(s, id, tracked, drift);
    SoundIsSafe(s);
    hide Safe;
    ReviewedIsParked(s, id);
    VerdictMisleads(s, id, tracked, drift);
    VerdictSettles(s, id, tracked, drift);
    if HasMoved(t, id) {
      MovedMoves(t, id);
    } else if t.tables.rows[id].status == Refunded {
      FairStep(s, id, tracked, drift);
      ReturnedNeverMoves(t, id);
    }
  }

  lemma MovedMoves(s: State, id: Id)
    requires HasMoved(s, id)
    ensures !NeverMoves(s, id)
  {
    hide HasMoved, Leads;
    LeadsToItself(s);
  }
}
