/** The verdict on an unconfirmed payout: what a bot's balance says about whether its money left. */
module BalanceEvidence {

  const TOLERANCE_CAP: nat := 100_000

  datatype Verdict = PaidInGame | NotPaidInGame | Unclear

  function Distance(x: int): nat {
    if x < 0 then -x else x
  }

  function Tolerance(amount: nat): nat {
    var quarter := amount / 4;
    if quarter < TOLERANCE_CAP then quarter else TOLERANCE_CAP
  }

  function Judge(tracked: int, readingLow: int, readingStep: int, amount: int): Verdict {
    if readingStep != 1 || amount <= 0 then Unclear
    else
      var tolerance, residual := Tolerance(amount), readingLow - tracked;
      if Distance(residual) <= tolerance then NotPaidInGame
      else if Distance(residual + amount) <= tolerance then PaidInGame
      else Unclear
  }

  /** What an exact reading shows: the books, less the payout if it left, plus money nobody booked. */
  function Reading(tracked: int, amount: int, moved: bool, drift: int): int {
    tracked + drift - if moved then amount else 0
  }

  /** Unbooked money about as large as the payout: arriving to hide one that left, or leaving to fake one. */
  predicate Imitates(drift: int, amount: nat, moved: bool) {
    Distance(if moved then drift - amount else drift + amount) <= Tolerance(amount)
  }

  /** The verdict on an exact reading is wrong exactly when unbooked money imitates the payout. */
  lemma WrongOnlyIfDriftImitatesThePayout(tracked: int, amount: int, moved: bool, drift: int)
    requires amount > 0
    ensures var wrong := if moved then NotPaidInGame else PaidInGame;
            Judge(tracked, Reading(tracked, amount, moved, drift), 1, amount) == wrong <==> Imitates(drift, amount, moved)
  {
    assert 4 * Tolerance(amount) <= amount;
  }

  /** With unbooked money inside the tolerance the verdict is always given, and always right. */
  lemma RightWithinTolerance(tracked: int, amount: int, moved: bool, drift: int)
    requires amount > 0 && Distance(drift) <= Tolerance(amount)
    ensures !Imitates(drift, amount, moved)
    ensures Judge(tracked, Reading(tracked, amount, moved, drift), 1, amount)
         == if moved then PaidInGame else NotPaidInGame
  {
    assert 4 * Tolerance(amount) <= amount;
  }
}
