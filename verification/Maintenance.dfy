/** One maintenance run: expired leases are settled in one transaction, or not at all. */
module Maintenance {
  import opened Gateway

  datatype Status = Ran | Skipped | Threw

  /** The statements of a run; any of them may fail. */
  datatype Step = BeginStep | LockStep | ExpireStep | RestStep | CommitStep

  /** The database as one client sees it: what is committed, and the transaction on top of it. */
  class Client {
    var committed: Tables
    var working: Tables
    var open: bool

    constructor (tables: Tables)
      ensures committed == tables && working == tables && !open
    {
      committed, working, open := tables, tables, false;
    }

    method Begin()
      requires !open
      modifies this
      ensures open && committed == old(committed) && working == committed
    {
      working, open := committed, true;
    }

    method Commit()
      requires open
      modifies this
      ensures !open && committed == old(working)
    {
      committed, open := working, false;
    }

    method Rollback()
      modifies this
      ensures !open && committed == old(committed)
    {
      working, open := committed, false;
    }

    /**
     * runMaintenance: whatever statement fails, the transaction is closed again, and the leases have
     * expired either all, with the rest of the run, or none. A run that does not get the lock changes nothing.
     * A COMMIT that fails may have lost only its answer: `landed` says whether the database had done it by then.
     */
    method RunMaintenance(now: int, gotLock: bool, fails: set<Step>, landed: bool) returns (status: Status)
      requires !open
      modifies this
      ensures !open
      ensures status.Ran? <==> gotLock && fails == {}
      ensures status.Skipped? <==> !gotLock && BeginStep !in fails && LockStep !in fails
      ensures committed == if status.Ran? || (gotLock && fails == {CommitStep} && landed)
                           then ExpireLeases(old(committed), now) else old(committed)
    {
      var transactionOpen := false;
      var failed := BeginStep in fails;
      if !failed {
        Begin();
        transactionOpen := true;
        failed := LockStep in fails;
        if !failed && !gotLock {
          Rollback();
          return Skipped;
        }
        if !failed {
          failed := ExpireStep in fails;
        }
        if !failed {
          working := ExpireLeases(working, now);
          failed := RestStep in fails;
        }
        if !failed {
          EveryStep(fails);
          failed := CommitStep in fails;
          if !failed || landed {
            Commit();
          }
          if !failed {
            transactionOpen := false;
            return Ran;
          }
        }
      }
      if transactionOpen {
        Rollback();
      }
      return Threw;
    }
  }

  lemma EveryStep(steps: set<Step>)
    requires BeginStep !in steps && LockStep !in steps && ExpireStep !in steps && RestStep !in steps
    ensures steps == if CommitStep in steps then {CommitStep} else {}
  {
    forall s: Step
      ensures s in steps ==> s == CommitStep
    {
      match s {
        case BeginStep =>
        case LockStep =>
        case ExpireStep =>
        case RestStep =>
        case CommitStep =>
      }
    }
  }

  /** A run whose answer was lost may be done or not: after the next one it makes no difference. */
  lemma LostAnswersDoNotMatter(g: Tables, now: int, later: int)
    requires now <= later
    ensures ExpireLeases(ExpireLeases(g, now), later) == ExpireLeases(g, later)
  {
    var g', h := ExpireLeases(ExpireLeases(g, now), later), ExpireLeases(g, later);
    assert g'.jobs == h.jobs && g'.rows == h.rows;
  }
}
