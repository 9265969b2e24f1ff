# Donut Drop: verified model

A Dafny model of the money paths of Donut Drop, and proofs about them. The platform runs Minecraft bots that
pay players with the game server's `/pay` command. The gateway keeps withdrawals and jobs in SQL; a worker
claims a job, waits, writes the command, reads the server's chat and reports a result. The project's main
question is whether that machinery, in any order its events can come in, can pay a player twice or pay and
refund the same withdrawal.

`dafny verify dfyconfig.toml` checks everything.

## How it is laid out

The payout protocol:

- `Gateway.dfy`: withdrawal, job, vault transfer and journal, and every transaction on them, as functions of the tables.
- `WorkerModel.dfy`: the payout worker as a value, one function for each stretch of code between two waits.
- `MinecraftWorker.dfy`: the same worker as a class with its fields, each method tied to its function, with an
  invariant every method keeps. `WorkerPromises.dfy`: what that invariant gives each of them.
- `PayoutSystem.dfy`: worker, gateway and game server together. `Enabled` says when an event can happen and
  so holds every assumption about the environment; `Apply` says what it does; `IsRun` is a run.
- `PayoutInvariant.dfy`, `PayoutWorkerSteps.dfy`, `PayoutGatewaySteps.dfy`: the safety invariant, and that every
  event keeps it. `PayoutSession.dfy`: what the worker's own fields keep about time and sessions.
  `PayoutReads.dfy`, `PayoutProbes.dfy`: how far apart balance reads are, and how many probes can go unanswered
  while a payout is in flight.
  `PayoutEvidence.dfy`: why a confirmation can be believed.
- `PayoutSafety.dfy`, `PayoutEndings.dfy`, `PayoutDoubt.dfy`, `PayoutPromises.dfy`: the theorems over all runs.
  `PayoutWaits.dfy`: when an attempt can still write its /pay. `PayoutReviews.dfy`, `PayoutBalances.dfy`: what an
  operator or the bot's balance decides meanwhile. `PayoutAttempts.dfy`, `PayoutDeliveries.dfy`: how often a payout
  is tried, and messages that come late or again. `PayoutExample.dfy`: a run in which a payout succeeds, and the
  two in which a promise ends.
- `BalanceEvidence.dfy`: what a bot's balance says about an unconfirmed payout. `Maintenance.dfy`: the maintenance
  run's transaction.

The rest:

- `Utf16.dfy`, `KeyOrder.dfy`, `CanonicalText.dfy`, `CanonicalWalk.dfy`, `CanonicalGraph.dfy`, `Signatures.dfy`: canonical
  JSON, its reader, the traversal of object graphs, which graphs have data at all, and the signed payloads.
- `Base64.dfy`, `Fingerprint.dfy`, `FingerprintDepth.dfy`, `ItemWalk.dfy`, `ItemGraph.dfy`: the text behind an item's
  fingerprint, and the traversal that builds it. `PayloadOrder.dfy`: the key order of signed and hashed objects.
- `CrateMath.dfy`, `CrateTable.dfy`, `CrateSearch.dfy`, `LargestRemainder.dfy`, `CrateWeights.dfy`: building a crate.
- `Migrator.dfy`: the migration loop, cut off at any statement.
- `Decimal.dfy`, `MoneyReading.dfy`, `MoneyPrinting.dfy`: reading and printing amounts.
- `Receipts.dfy`, `ReceiptQueue.dfy`: reporting receipts one after another, and the queue that does it while more arrive.
- `Alerts.dfy`, `Limiter.dfy`, `Snapshot.dfy`, `Odds.dfy`: the smaller stateful and arithmetic parts.
- `Arithmetic.dfy`, `Options.dfy`, `Places.dfy`: shared helpers.

## What the environment is trusted for

All of it stands in `PayoutSystem.Enabled`:

- The worker's clock never goes back, and timers fire in the order they are due. The gateway's clock is arbitrary.
- Only claims and results the worker signed reach the gateway; they may come late, again, or never.
- A refusal or a command cooldown seen while an entry is armed is the server's answer to that entry's /pay. The
  whispers at services/minecraft-bot/src/worker.ts:1138 are sent outside the command gap, so this is an assumption.
- A receipt comes only for a /pay that moved money, on the connection that /pay was written to.
- A balance is judged after the payout was decided, and money nobody booked does not imitate the payout. That is
  the weakest assumption under which the verdict is right (`PayoutBalances.BalanceMisleadsExactly`).
- Code between two waits, and every SQL transaction, is one step. A process that dies loses its fields, not what it sent.

A thrown write may or may not have reached the server: both are covered. Nothing is assumed about which
messages arrive, when connections end, or what operators do.

## What turned out to be false

- "Refunded means never paid" does not hold of a refund an operator decides on in review
  (`PayoutExample.ARefundCanMeetAPayment`). It holds of one if and only if every /pay of the withdrawal was decided,
  none moved money, and no attempt can still write one (`PayoutReviews.RefundIsSafeExactly`).
- "With an entry armed the worker never logs itself out" fails after a write that threw: its entry is still armed when
  other work ends with a reconnect (`PayoutExample.ALogoutCanFindAnEntry`). It holds of every other step, and a payout
  in flight is never cut off at all (`PayoutPromises.InFlightMeansSafe`).
- Canonical JSON is not prefix-free: the text of 1 begins the text of 12 (`CanonicalText.OneBeginsTwelve`). It fails
  between two numbers only (`CanonicalText.OnlyNumbersContinue`).
- An array with one empty position has the text of an empty array, so canonical JSON is decodable only up to that
  (and up to -0); fingerprints inherit it.
- The depth rule 3 * objects + 2 * arrays <= 30 is too generous by two for typed arrays with entries.
- The crate's trimming is not quite necessary: of the crates it cuts exactly those were usable whose mean equals the
  target and whose shaped weights are all equal (`CrateTable.DroppedCratesAreUsableExactlyWhenFlat`).
- A migration is atomic only if its body does not end the transaction itself; the exact condition is proved.
- An operator's quarantine stops queued and leased payout jobs but leaves the cash withdrawals as they were
  (services/api-gateway/src/routes/admin.ts:490-506), while the comment on the automatic quarantine
  (services/api-gateway/src/routes/minecraft-in.ts:1584-1588) says payouts must not be stranded that way. The model
  follows the code: such a withdrawal stays queued exactly until a result of it arrives
  (`PayoutReviews.QuarantineStrandsUntilReported`), and for good if none is on its way.
- A pool thinned to a limit below two keeps two entries (`CrateSearch.ThinnedBelowTwo`).
- The comment at services/api-gateway/scripts/dev-seed.ts:851 calls the resolution it settles on the coarsest that fits;
  the code takes the finest, and so does the model (`CrateWeights.SolveWeights`).

## Model

| member | source | states |
|---|---|---|
| PayoutSafety.EveryStateIsSound | services/minecraft-bot/src/worker.ts:1741-1908 | in every state of every run of worker, gateway and server the three invariants hold: leases and withdrawals agree with what was paid, the worker's timing and session fields are consistent, and every confirmation has its proof |
| PayoutSafety.PaidAtMostOnce | services/minecraft-bot/src/worker.ts:1731-1891 | over every run two /pay commands for one withdrawal that both moved money are the same command: a player is never paid twice in game |
| PayoutSafety.ReturnedMeansNeverPaid | services/api-gateway/src/routes/minecraft-in.ts:1855-1893 | a withdrawal that was refunded by the system, or rejected before approval, has not been paid in game and never will be in the rest of the run |
| PayoutSafety.PaidOrRefundedOnce | services/api-gateway/src/routes/cash-withdrawals.ts:111-145 | a withdrawal is refunded at most once, has a refund exactly when its row says refunded or rejected, is never both paid and refunded, and says paid exactly when something paid it |
| PayoutSafety.RefundsStay | services/api-gateway/src/routes/cash-withdrawals.ts:116-141 | a refund once booked is never taken away by any later step |
| PayoutSafety.ClosedStays | services/api-gateway/src/routes/cash-withdrawals.ts:111-145 | a withdrawal once paid, refunded or rejected never changes again, whatever arrives or is decided later |
| PayoutWaits.DeadJobsAreNeverSentAgain | services/api-gateway/scripts/maintenance.ts:49-76 | once a job is dead (expired, stopped, completed, retired), or parked behind a settled withdrawal, and no attempt can still write, no /pay is ever written for that withdrawal again |
| PayoutWaits.WritesAgainExactly | services/minecraft-bot/src/worker.ts:1757-1774 | and if and only if: some continuation still writes a /pay for it exactly when an attempt holds its lease on a connection that is still there, in a process that was not stopped, with no /bal left whose answer can only come too late |
| PayoutWaits.ExpiredLeasesEnd | services/api-gateway/scripts/maintenance.ts:49-76 | over the rest of any run an expired lease is never followed by another: the job stays dead, and a further /pay can be written in some continuation if and only if the attempt that held the lease can still write |
| PayoutWaits.ExpiredLeaseStops | services/api-gateway/scripts/maintenance.ts:49-76 | the sweep that finds a lease expired keeps its token, sends an open withdrawal to review, refunds nothing, and leaves the worker's chances as they were |
| PayoutDoubt.DoubtIsNeverActedOn | services/minecraft-bot/src/worker.ts:1769-1890 | from the moment a payout is reported as confirmed, unconfirmed, for another amount or thrown, over the rest of any run: no further /pay is written for it, money is given back only on the bot's balance or by an operator, and a withdrawal that has left the queue never returns to it |
| PayoutDoubt.DoubtGoesToReview | services/api-gateway/src/routes/minecraft-in.ts:1684-1893 | however late such a failure reaches the gateway, in any run, it ends the job and puts a withdrawal still in the queue before an operator |
| PayoutDoubt.EveryStateSettles | services/minecraft-bot/src/worker.ts:1741-1891 | in every state of every run each claim has been reported on at most once, and the job of a doubtful report is dead or still leased under that report's own token, with nobody working on it |
| PayoutReviews.RefundIsSafeExactly | services/api-gateway/src/routes/admin-operations.ts:462-497 | an operator's refund in review: the player is paid as well in no continuation if and only if every /pay of the withdrawal was decided, none moved money, and no attempt can still write one |
| PayoutReviews.OperatorRefunds | services/api-gateway/src/routes/admin-operations.ts:462-497 | the same for every such refund in every run |
| PayoutReviews.NeverMovesExactly | services/minecraft-bot/src/worker.ts:1741-1774 | the same of every withdrawal whose job is dead, or parked behind a settled row, however it came to that |
| PayoutExample.ARefundCanMeetAPayment | services/api-gateway/src/routes/admin-operations.ts:462-497 | a concrete run in which a withdrawal is refunded by an operator and paid in game |
| PayoutReviews.QuarantineStrandsExactly | services/api-gateway/src/routes/admin.ts:490-506 | an operator's quarantine leaves a withdrawal queued behind a stopped job exactly when its payout was queued or leased and the withdrawal open |
| PayoutReviews.QuarantineStrandsUntilReported | services/api-gateway/src/routes/admin.ts:490-506 | over the rest of any run such a withdrawal stays as it is exactly until a result of it arrives, and then leaves the queue for good, to an operator |
| PayoutReviews.QuarantineStrandsForGood | services/api-gateway/src/routes/admin.ts:490-506 | and if nobody was working on it and no result is on its way, it stays there for the rest of the run |
| PayoutDeliveries.ResultsCountOnce | services/api-gateway/src/routes/minecraft-in.ts:268-283 | a result event that has arrived changes nothing when it arrives again, at any later point of any run |
| PayoutDeliveries.ClaimsCountOnce | services/api-gateway/src/routes/minecraft-in.ts:500-534 | a claim asked again under its event changes nothing and gets its first answer, at any later point of any run |
| PayoutDeliveries.ConfirmationLands | services/api-gateway/src/routes/minecraft-in.ts:1608-1630 | a confirmation pays its withdrawal in time or after its lease ran out; from then on the withdrawal stays paid on that receipt, and no continuation writes another /pay for it |
| PayoutDeliveries.FifthFailureEnds | services/api-gateway/src/routes/minecraft-in.ts:1866-1893 | a payout that could not be sent goes back to the queue with a growing delay; its fifth failure refunds it for the rest of the run, and no continuation moves money for it |
| PayoutPromises.ReportsAreTrue | services/minecraft-bot/src/worker.ts:1777-1867 | whenever the worker reports, a confirmation is backed by a payment that happened and every retryable, not-sent or no-funds report is true of every command ever written for that withdrawal |
| PayoutPromises.EveryPayIsWellTimed | services/minecraft-bot/src/worker.ts:1519-1551 | every /pay ever written, for withdrawals and for the platform's own payments, went out on the connection its job was claimed on, at least the command gap after every earlier command, and after an answer to every earlier /bal |
| PayoutPromises.EveryPayoutIsConcluded | services/minecraft-bot/src/worker.ts:1894-1908 | a payout in flight always has its own eight-second timer still running |
| PayoutPromises.InFlightMeansSafe | services/minecraft-bot/src/worker.ts:588-596 | over every run no step logs the worker out while a /pay is in flight, whatever an earlier thrown write left behind; with an entry armed a step logs it out if and only if it is other work ending with a reconnect on a live connection, and then that entry is a thrown write already reported |
| PayoutExample.ALogoutCanFindAnEntry | services/minecraft-bot/src/worker.ts:1910-1942 | a concrete run to a logout after other work with a thrown write's entry still armed |
| PayoutProbes.WorkerKeepsProbing | services/minecraft-bot/src/worker.ts:1470-1516 | every worker event keeps the count: unanswered probes plus the early ones still to come due never exceed the balance reads written early in the window of the payout in flight |
| PayoutProbes.FewEarlyReads | services/minecraft-bot/src/worker.ts:1449-1482 | at most two balance reads are written in the part of a payout's window from which a probe can still come due inside it, one by each of the two timers |
| PayoutProbes.SilenceIsEarly | services/minecraft-bot/src/worker.ts:1492-1516 | a probe found unanswered while a payout is in flight was sent early in that payout's window, and at most one was counted before it |
| PayoutProbes.ProbesSpareFlights | services/minecraft-bot/src/worker.ts:1492-1516 | a probe coming due while a payout is in flight never reaches the limit, so it never logs out |
| PayoutReads.WorkerKeepsTimed | services/minecraft-bot/src/worker.ts:1323-1332 | every worker event keeps the balance reads of a session apart: four seconds between reads of the one timer, twenty minutes between idle ones |
| PayoutReads.ReadsStayApart | services/minecraft-bot/src/worker.ts:1449-1482 | a read that its timer asked for when it came due is that far from every earlier one |
| PayoutPromises.EveryWorkerIsWatched | services/minecraft-bot/src/worker.ts:1449-1516 | spacing and count hold in every state of every run |
| PayoutPromises.NoPayoutOutlivesItsSession | services/minecraft-bot/src/worker.ts:882-990 | no login starts while an entry is armed, and a receipt seen while one is armed comes from the connection that entry's /pay was written to |
| PayoutPromises.PaidOnReceiptIsProven | services/api-gateway/src/routes/minecraft-in.ts:1608-1630 | a withdrawal marked paid on a receipt has its own /pay and a /pay, of whatever kind, that moved money to the same player on the same connection, shown as an amount covering the withdrawal's |
| PayoutPromises.PaidOnReceiptWasPaid | services/minecraft-bot/src/worker.ts:826-833 | if no other /pay, of whatever kind, went to that player in that session, the money that moved was this withdrawal's |
| PayoutPromises.PaidFromBalanceWasPaid | services/api-gateway/src/lib/unconfirmed-payouts.ts:115-140 | a withdrawal marked paid from the bot's balance was paid in game, unless unbooked money imitated it |
| PayoutExample.APayoutCanSucceed | services/minecraft-bot/src/worker.ts:1741-1878 | the assumptions on the environment allow a whole payout: a concrete run ends with the money moved and the withdrawal paid on its receipt |
| PayoutGatewaySteps.ApproveKeepsSafe | services/api-gateway/src/routes/cash-withdrawals.ts:174-258 | approval queues or releases the one job of a withdrawal, or has the vault fund it first, and keeps the invariant |
| PayoutGatewaySteps.LandKeepsSafe | services/api-gateway/src/routes/minecraft-in.ts:1349-1376 | the vault's transfer landing, in time or on a later receipt, queues the player's payout once and keeps the invariant |
| PayoutGatewaySteps.GatewayKeepsSafe | services/api-gateway/src/routes/minecraft-in.ts:500-1893 | every transaction keeps the invariant |
| PayoutGatewaySteps.VerdictIsRight | services/api-gateway/src/lib/unconfirmed-payouts.ts:50-65 | unless unbooked money imitates the payout, a balance verdict of not paid means every command moved nothing, and a verdict of paid means money moved |
| PayoutBalances.BalanceMisleadsExactly | services/api-gateway/src/lib/unconfirmed-payouts.ts:115-160 | in any state of any run and for any amount of unbooked money: a withdrawal the balance decides is refunded and yet paid in some continuation if and only if it was paid and the unbooked money hides that, and marked paid for nothing if and only if nothing moved and the unbooked money looks like it |
| PayoutGatewaySteps.SettledIsOk | services/api-gateway/src/routes/minecraft-in.ts:1632-1893 | every branch of a job result (late confirmation, invalid lease, completed, requeue for funds, refund, review, retry) leaves job and withdrawal in keeping with the invariant |
| PayoutGatewaySteps.LeaseKeepsSafe | services/api-gateway/src/routes/minecraft-in.ts:644-665 | leasing a claimable job to a claim event keeps the invariant: the worker takes the lease up only if it still waits for that claim |
| PayoutWorkerSteps.NotMovedIsConcludedFrom | services/minecraft-bot/src/worker.ts:1802-1846 | the worker concludes that nothing moved only from a refusal, or from a cooldown seen and then silence |
| PayoutWorkerSteps.WindowEndsKeepsSafe | services/minecraft-bot/src/worker.ts:1896-1899 | a window that runs out keeps the invariant, also when the timer of an earlier, thrown write clears a newer entry |
| PayoutWorkerSteps.WorkerKeepsSafe | services/minecraft-bot/src/worker.ts:1741-1908 | every event of the worker keeps the invariant |
| PayoutSession.CapNeverBinds | services/minecraft-bot/src/worker.ts:1543-1551 | the cap of the wait before a /pay never shortens the gap that is needed |
| PayoutSession.NoBalanceDuringTheWait | services/minecraft-bot/src/worker.ts:1470-1477 | during that wait asking for the balance writes nothing |
| PayoutSession.WriteKeepsCommands | services/minecraft-bot/src/worker.ts:1757-1774 | writing a /pay keeps the timing of every command: a full gap after all earlier ones and an answer to every earlier /bal |
| PayoutSession.EndKeepsSession | services/minecraft-bot/src/worker.ts:882-990 | when a connection ends an armed entry runs out before the next login may start: eight seconds of window against ten to the login, the shorter relog gap only with nothing armed |
| PayoutSession.LoginFindsNothingArmed | services/minecraft-bot/src/worker.ts:895-990 | a login that may start finds no entry armed |
| PayoutSession.WorkerKeepsSession | services/minecraft-bot/src/worker.ts:588-1908 | every event of the worker keeps its timing and session invariants |
| PayoutEvidence.ReceiptProves | services/minecraft-bot/src/worker.ts:826-833 | a receipt taken as the answer of the payout in flight came in that payout's own session, names its player and covers its amount |
| PayoutEvidence.WorkerIsHonest | services/minecraft-bot/src/worker.ts:1741-1878 | every event of the worker writes and reports only what it should |
| PayoutEvidence.ReceiptsComeFromResults | services/api-gateway/src/routes/minecraft-in.ts:1608-1730 | of all transactions only a completed result for that job marks a withdrawal paid on a receipt |
| PayoutEvidence.GatewayKeepsProven | services/api-gateway/src/routes/minecraft-in.ts:1608-1893 | no transaction marks a withdrawal paid on a receipt without its proof |
| MinecraftWorker.Worker.PollJobs | services/minecraft-bot/src/worker.ts:1627-1690 | keeps the object valid and is the model's step; asks for work only with no poll, relog, teleport or transfer going on and /bal answered |
| MinecraftWorker.Worker.StartPayout | services/minecraft-bot/src/worker.ts:1741-1758 | keeps the object valid; the wait ends no earlier than the command gap after the last command and the window of an open /bal |
| MinecraftWorker.Worker.SendPayout | services/minecraft-bot/src/worker.ts:1757-1800 | keeps the object valid; the one command it may write is this job's /pay, on the claim's connection, a full gap after every command and after an answer to every /bal, and it never logs out |
| MinecraftWorker.Worker.PayoutTimer | services/minecraft-bot/src/worker.ts:1896-1899 | keeps the object valid; no entry is left, whichever payout armed it, and nothing is sent or logged out |
| MinecraftWorker.Worker.SeeRefusal | services/minecraft-bot/src/worker.ts:809-814 | keeps the object valid; no entry is left and nothing is sent or logged out |
| MinecraftWorker.Worker.SeeReceipt | services/minecraft-bot/src/worker.ts:826-833 | keeps the object valid; a receipt for another player changes nothing at all |
| MinecraftWorker.Worker.EndReport | services/minecraft-bot/src/worker.ts:1849-1857 | keeps the object valid; logs out only after an unconfirmed payout was reported, and never with an entry armed |
| MinecraftWorker.Worker.ProbeTimer | services/minecraft-bot/src/worker.ts:1492-1515 | keeps the object valid; never logs out with a payout in flight or an entry armed |
| MinecraftWorker.Worker.BalanceTimer | services/minecraft-bot/src/worker.ts:1449-1482 | keeps the object valid; writes nothing while a payout waits for its gap or an entry is armed |
| MinecraftWorker.Worker.RelogTimer | services/minecraft-bot/src/worker.ts:1335-1345 | keeps the object valid; logs out only with no entry armed, no poll at work and no transfer |
| MinecraftWorker.Worker.RelogWhenIdle | services/minecraft-bot/src/worker.ts:1355-1375 | keeps the object valid; logs out only with no entry armed, no poll at work and no transfer |
| MinecraftWorker.Worker.CheckManualPlay | services/minecraft-bot/src/worker.ts:588-596 | keeps the object valid; logs out only with no entry armed, no poll at work and no transfer |
| MinecraftWorker.Worker.EndConnection | services/minecraft-bot/src/worker.ts:882-990 | keeps the object valid; an armed entry runs out before the next login may start |
| MinecraftWorker.Worker.OpenConnection | services/minecraft-bot/src/worker.ts:598-600 | keeps the object valid; a login finds no entry armed and no payout in flight |
| WorkerPromises.EventKeepsSane | services/minecraft-bot/src/worker.ts:588-1908 | every event the worker meets by itself keeps what `Valid` says: session, read spacing and probe count |
| Maintenance.Client.RunMaintenance | services/api-gateway/scripts/maintenance.ts:33-124 | whatever statement fails, a COMMIT that only lost its answer included, the transaction is closed and leases have expired all together with the rest of the run or not at all; without the lock nothing changes |
| Maintenance.LostAnswersDoNotMatter | services/api-gateway/scripts/maintenance.ts:49-76 | a run whose answer was lost may be done or not: after the next run it makes no difference |
| PayoutAttempts.AttemptsAreBounded | services/api-gateway/src/routes/minecraft-in.ts:615-650 | in every run no payout has used more than its five attempts |
| MoneyReading.ReadDisplayInvertsShow | services/minecraft-bot/src/payment-chat.ts:256-266 | the pattern reads a display as a figure exactly when the display is that well-formed figure written out |
| MoneyReading.BoundsDefinedExactly | services/minecraft-bot/src/payment-chat.ts:256-278 | a display has an interval exactly when its fraction has no more digits than its unit's power of ten |
| MoneyReading.BoundsAreTheTruncations | services/minecraft-bot/src/payment-chat.ts:256-278 | the interval holds exactly the amounts the server would cut down to that display |
| MoneyReading.CoversExactlyTheTruncations | services/minecraft-bot/src/worker.ts:2015-2025 | a payout counts as confirmed exactly when the display is a truncation of the amount asked for |
| MoneyReading.BalanceReaderAgrees | services/minecraft-bot/src/payment-chat.ts:200-229 | wherever the receipt reader has an interval for a figure the balance reader has the same one |
| MoneyReading.GatewayCoversMoreOnlyWhenOverPrecise | services/api-gateway/src/routes/minecraft-in.ts:1319-1338 | the gateway's version accepts what the worker's does and otherwise only exact amounts padded with zeros finer than a dollar |
| MoneyPrinting.FullAmountRoundTrip | DONUTDROP FRONTEND/Donut Drop/admin/admin.js:363-384 | an amount printed in full parses back to itself, for every non-zero integer; zero is refused |
| MoneyPrinting.CompactAmountRoundTrip | DONUTDROP FRONTEND/Donut Drop/admin/admin.js:397-416 | an amount printed at a glance parses back to itself cut towards zero to a hundredth of its scale, exactly below a thousand |
| MoneyPrinting.TwoDecimals | DONUTDROP FRONTEND/Donut Drop/admin/admin.js:409-411 | dropping trailing zeros of the two decimals loses nothing |
| BalanceEvidence.WrongOnlyIfDriftImitatesThePayout | services/api-gateway/src/lib/unconfirmed-payouts.ts:50-65 | the verdict on an exact reading is wrong if and only if unbooked money imitates the payout to within the tolerance |
| BalanceEvidence.RightWithinTolerance | services/api-gateway/src/lib/unconfirmed-payouts.ts:50-65 | unbooked money inside the tolerance imitates no payout: the verdict is then always given and always right |
| CanonicalText.ReadsBack | services/minecraft-bot/src/canonical.ts:12-63 | the reader takes a value's text off the front of whatever follows if and only if the value is no number or what follows does not go on with a digit, sign, point or exponent |
| CanonicalText.SameTextSameValue | services/minecraft-bot/src/canonical.ts:8-66 | two values have the same text exactly when they are equal up to -0 and 0 and up to an array of one empty position and an empty array |
| CanonicalText.OnlyNumbersContinue | services/minecraft-bot/src/canonical.ts:8-66 | one text begins another and stops short of it only where both are numbers' texts: for every other value the encoding is prefix-free |
| CanonicalText.OneBeginsTwelve | services/minecraft-bot/src/canonical.ts:21-26 | and numbers' texts do: the text of 1 begins the text of 12 |
| CanonicalText.ArrayIsJoined | services/minecraft-bot/src/canonical.ts:39-44 | an array's text is its elements' texts joined by commas between brackets |
| CanonicalText.ObjectIsJoined | services/minecraft-bot/src/canonical.ts:46-59 | an object's text is key, colon and value joined by commas between braces |
| Utf16.StringRoundTrip | services/minecraft-bot/src/canonical.ts:18-20 | a quoted string is read back exactly: quotes, control characters and lone surrogates included |
| KeyOrder.SortedIsOrderBlind | services/minecraft-bot/src/canonical.ts:47 | the sorted keys do not depend on the order properties were added in |
| KeyOrder.SortedIncreases | services/minecraft-bot/src/canonical.ts:47 | sorting by UTF-16 code units puts distinct keys in strictly rising order |
| KeyOrder.SortedKeeps | services/minecraft-bot/src/canonical.ts:47 | sorting keeps exactly the properties there were |
| CanonicalWalk.CanonicalJson | services/minecraft-bot/src/canonical.ts:8-66 | the traversal ends on every object graph, accepts exactly the graphs that unfold to finite data within the node, depth and collection limits, and writes that data's text |
| CanonicalWalk.Canonicalizer.Visit | services/minecraft-bot/src/canonical.ts:12-63 | one visit with the shared counter and the ancestor set: what is accepted, by how much the counter grows, and that a rejection means no data would fit into what is left of the limits |
| CanonicalWalk.Canonicalizer.VisitArray | services/minecraft-bot/src/canonical.ts:39-44 | the same for an array, empty positions skipped |
| CanonicalWalk.Canonicalizer.VisitObject | services/minecraft-bot/src/canonical.ts:46-59 | the same for an object, its keys sorted, accessors refused |
| CanonicalWalk.UnfoldsOnce | services/minecraft-bot/src/canonical.ts:12-63 | a graph stands for at most one piece of data |
| CanonicalWalk.OrderDoesNotMatter | services/minecraft-bot/src/canonical.ts:46-59 | graphs that differ only in the order of properties stand for the same data |
| CanonicalWalk.CyclesAreNeverAcceptable | services/minecraft-bot/src/canonical.ts:30 | a graph on a cycle is rejected wherever the cycle is entered |
| CanonicalGraph.HasDataExactlyWhenClean | services/minecraft-bot/src/canonical.ts:12-63 | a graph stands for data exactly when everything within reach is supported and no way through it comes by the same place twice |
| CanonicalGraph.AcceptableExactlyWhenClean | services/minecraft-bot/src/canonical.ts:8-66 | what is accepted is exactly the acyclic, supported graphs whose data is within the depth, node and collection limits |
| Signatures.RequestsAndResponsesNeverCollide | services/minecraft-bot/src/api-client.ts:175-215 | no request signature payload has the text of a response payload, whatever their contents |
| Signatures.RequestTextFixesTheRequest | services/minecraft-bot/src/api-client.ts:175-192 | a request payload's text fixes method, path, bot, timestamp and body |
| PayloadOrder.RequestIsSorted | services/minecraft-bot/src/api-client.ts:175-192 | the request's properties as written, put in code unit order, are the payload the other theorems speak of |
| PayloadOrder.ResponseIsSorted | services/minecraft-bot/src/api-client.ts:194-215 | and so are the response's |
| Base64.EncodeIsInjective | services/minecraft-bot/src/fingerprint.ts:56-77 | base64 never writes two byte strings alike |
| Fingerprint.TagsDiffer | services/minecraft-bot/src/fingerprint.ts:34-129 | no two types carry the same tag |
| Fingerprint.TaggedIsInjective | services/minecraft-bot/src/fingerprint.ts:29-136 | tagging and canonicalization keep apart any two pieces of item data, except a list of one gap and an empty list |
| Fingerprint.TaggedFixesData | services/minecraft-bot/src/fingerprint.ts:29-136 | and nothing else is told apart: the exact equivalence |
| Fingerprint.FingerprintTextFixesTheItem | services/minecraft-bot/src/fingerprint.ts:139-153 | two items have the same text to hash exactly when name, metadata, nbt and both component lists agree |
| Fingerprint.WhatIsLost | services/minecraft-bot/src/fingerprint.ts:144-151 | the two losses on concrete items: metadata of -0 counts as 0, and a list of one gap as an empty list |
| ItemWalk.NormalizeItemData | services/minecraft-bot/src/fingerprint.ts:24-136 | the traversal ends on every object graph, accepts exactly the graphs that unfold to data within its limits, and returns that data tagged |
| ItemWalk.Normalizer.Visit | services/minecraft-bot/src/fingerprint.ts:28-133 | one visit with the shared counter and the ancestor set: what is accepted and how the counter grows; a rejection means no data would fit |
| ItemWalk.Normalizer.VisitList | services/minecraft-bot/src/fingerprint.ts:98-103 | the same for an array, empty positions skipped |
| ItemWalk.Normalizer.VisitRecord | services/minecraft-bot/src/fingerprint.ts:105-129 | the same for an object, keys sorted, hidden properties, accessors and oversized keys refused |
| ItemWalk.FlatIsExact | services/minecraft-bot/src/fingerprint.ts:34-90 | a value that is no collection is accepted exactly within the limits on its own size |
| ItemWalk.UnfoldsOnce | services/minecraft-bot/src/fingerprint.ts:28-133 | a graph stands for at most one piece of item data |
| ItemWalk.FingerprintText | services/minecraft-bot/src/fingerprint.ts:139-153 | the text that is hashed is the canonical text of the one item described, and there is none exactly when the item is malformed, no such item exists or it is too big |
| ItemWalk.SameTextSameItem | services/minecraft-bot/src/fingerprint.ts:139-153 | two objects that both get a fingerprint have the same text exactly when the items they describe agree |
| ItemGraph.HasDataExactlyWhenClean | services/minecraft-bot/src/fingerprint.ts:28-133 | limits aside, an object graph stands for item data exactly when everything within reach is supported and nothing comes back to itself |
| ItemGraph.NormalExactlyWhenClean | services/minecraft-bot/src/fingerprint.ts:28-133 | item data is accepted exactly when everything within reach is supported, nothing comes back to itself, and the data is within the limits |
| PayloadOrder.ItemIsSorted | services/minecraft-bot/src/fingerprint.ts:144-151 | an item's properties as written, put in code unit order, are the pre-image |
| FingerprintDepth.FitsByHeight | services/minecraft-bot/src/canonical.ts:12-15 | the encoder's depth check at every node is a bound on the height of the whole |
| FingerprintDepth.TaggedHeight | services/minecraft-bot/src/fingerprint.ts:29-136 | exactly how many levels tagging takes: three for each object, two for each array, one for a leaf, three for a typed array with entries |
| FingerprintDepth.PassesTheEncoder | services/minecraft-bot/src/fingerprint.ts:139-153 | an item passes the encoder's depth and collection limits exactly when each part takes at most 31 levels |
| FingerprintDepth.PassesByPath | services/minecraft-bot/src/fingerprint.ts:139-153 | 3 * objects + 2 * arrays at most 30 on every path suffices without typed arrays, 28 with them |
| FingerprintDepth.TypedArraysNeedMore | services/minecraft-bot/src/fingerprint.ts:76-90 | the bound of 30 is wrong for typed arrays: fifteen lists around one go too deep |
| CrateMath.Chebyshev | services/api-gateway/scripts/dev-seed.ts:752-766 | Chebyshev's sum inequality for falling weights on rising values |
| CrateMath.ChebyshevIsEqualOnlyWhenFlat | services/api-gateway/scripts/dev-seed.ts:752-766 | its equality case: with values that differ only equal weights reach it |
| CrateMath.FallingTableMean | services/api-gateway/scripts/dev-seed.ts:752-766 | a table never likelier for being dearer averages at most the plain mean of its values |
| CrateTable.ShapeFalls | services/api-gateway/scripts/dev-seed.ts:583-604 | shaped weights never rise with value and lie between one and the clamp, for any rising logarithm and exponential |
| CrateTable.SharesPayTheTarget | services/api-gateway/scripts/dev-seed.ts:826-840 | the solved shares are non-negative, sum to one and pay exactly the target |
| CrateTable.SharesFall | services/api-gateway/scripts/dev-seed.ts:826-840 | with the filler in front they never rise with value |
| CrateTable.UsableNeedsTheMean | services/api-gateway/scripts/dev-seed.ts:752-775 | every crate the loop accepts has a plain mean of at least its target |
| CrateTable.NoFallingTableBeatsTheMean | services/api-gateway/scripts/dev-seed.ts:752-775 | no falling table reaches a target above the plain mean |
| CrateTable.UsableAtTheMean | services/api-gateway/scripts/dev-seed.ts:765-775 | at a mean of exactly the target a crate can be usable although the trimming drops its cheapest item |
| CrateTable.DroppedCratesAreUsableExactlyWhenFlat | services/api-gateway/scripts/dev-seed.ts:765-849 | of the crates whose mean does not clear the target exactly those are usable whose mean equals it and whose shaped weights are all equal and positive |
| CrateTable.WeightsFall | services/api-gateway/scripts/dev-seed.ts:890 | rounded weights keep the order of the shape and are at least one |
| CrateTable.FillerAbsorbs | services/api-gateway/scripts/dev-seed.ts:891-892 | the filler takes what rounding left over: the weights sum exactly to the ordinary weight |
| CrateTable.RoundedTableIsNear | services/api-gateway/scripts/dev-seed.ts:888-892 | the integer table's total payout misses the target by less than the summed heights above the filler |
| CrateTable.OrdinaryMeanIsNear | services/api-gateway/scripts/dev-seed.ts:888-892 | so its mean misses by less than that over the ordinary weight |
| CrateSearch.ThinPool | services/api-gateway/scripts/dev-seed.ts:306-346 | for every limit the thinned pool is the ends and the nearest unpicked item to each stop, in order |
| CrateSearch.NearestIsNearest | services/api-gateway/scripts/dev-seed.ts:325-339 | each stop takes an unpicked item of least distance, the first of equals |
| CrateSearch.ThinnedKeepsTheEnds | services/api-gateway/scripts/dev-seed.ts:306-346 | a longer pool is thinned to exactly the limit, in order, without repeats, first and last kept: every stop finds an unpicked item |
| CrateSearch.ThinnedBelowTwo | services/api-gateway/scripts/dev-seed.ts:306-346 | with a limit below two the two ends are still returned |
| CrateSearch.Trim | services/api-gateway/scripts/dev-seed.ts:765-775 | drops exactly the cheapest entries at which the mean has not cleared the target, down to three |
| CrateSearch.TrimmingIsNecessary | services/api-gateway/scripts/dev-seed.ts:752-775 | nothing trimmed below the target could have been kept |
| CrateSearch.Relax | services/api-gateway/scripts/dev-seed.ts:817-851 | finds the steepest usable rung, and nothing only when every rung it reaches is unusable |
| CrateSearch.RelaxedCrateIsSound | services/api-gateway/scripts/dev-seed.ts:817-851 | whatever rung is taken, the shares are a falling table paying the target, and the plain mean clears it |
| CrateSearch.ExpectedValue | services/api-gateway/scripts/dev-seed.ts:567-578 | weighted total over total weight of the entries that have a weight, surplus weights and entries ignored, zero for no weight |
| CrateSearch.ScalingKeepsTheMean | services/api-gateway/scripts/dev-seed.ts:567-578 | weights in proportion to shares average what the shares do |
| LargestRemainder.Apportion | services/api-gateway/src/lib/mystery-odds.ts:327-363 | succeeds exactly when the floors leave something to hand out; the parts sum exactly to the whole and none is zero; with shares summing to one each part is one unit and, to within a unit, its share of what is left after one unit each, larger remainders first |
| LargestRemainder.OrderIsOrdering | services/api-gateway/src/lib/mystery-odds.ts:344-346 | the order lists every share once, by falling remainder |
| CrateWeights.SplitKeepsTheChance | services/api-gateway/src/lib/mystery-odds.ts:289-314 | the mystery slot gets at least the weight asked for unless the column's limit cuts the total, and its chance to half a unit exactly when that chance comes to half a unit of the total |
| CrateWeights.WeightsAt | services/api-gateway/scripts/dev-seed.ts:874-912 | at one resolution: the weights that fit, and nothing exactly when none do |
| CrateWeights.FittingWeightsAddUp | services/api-gateway/scripts/dev-seed.ts:890-912 | weights that fit sum exactly to the split's total, the payloads' to the mystery slot's, each by its share |
| CrateWeights.SolveWeights | services/api-gateway/scripts/dev-seed.ts:874-926 | the finest of the five resolutions at which weights fit, and nothing exactly when they fit at none |
| Migrator.AtomicExactly | services/api-gateway/scripts/migrate.ts:50-98 | a file that changes something commits together with its checksum, wherever the run is cut off, exactly when no effect in its body stands before a COMMIT or ROLLBACK and a BEGIN follows each of those |
| Migrator.SealedIsAtomic | services/api-gateway/scripts/migrate.ts:90-95 | for such a file nothing is committed before the final COMMIT, which commits effects and checksum at once |
| Migrator.Server.MigrateFile | services/api-gateway/scripts/migrate.ts:50-98 | any file, stopped at any statement: exactly what is committed then, and that it stops half way exactly when the connection is lost before its last statement |
| Migrator.Server.Migrate | services/api-gateway/scripts/migrate.ts:50-98 | any list of files, cut off anywhere: exactly what is committed and how the run ends |
| Migrator.WholeOnlyWhenSealed | services/api-gateway/scripts/migrate.ts:50-98 | a file that changes something is found whole or not at all, wherever the connection is lost, if and only if it leaves the transaction alone |
| Migrator.MigrationsLeaveAPrefix | services/api-gateway/scripts/migrate.ts:50-98 | with such files a run stopped anywhere leaves what some number of the files leave, in sorted order; finished, what all leave; a changed file stops it before any later file |
| Migrator.LastingConnectionsFinish | services/api-gateway/scripts/migrate.ts:50-98 | a run whose connection lasts long enough does not stop half way, and finishes exactly when no file was changed after it was applied |
| Migrator.RunsAddUp | services/api-gateway/scripts/migrate.ts:50-98 | two cut-off runs leave what the longer of them would alone |
| Migrator.InterruptedRunsLeaveAPrefix | services/api-gateway/scripts/migrate.ts:50-98 | any number of cut-off runs together do what one run to the furthest stop does |
| Migrator.FinishedRunCompletes | services/api-gateway/scripts/migrate.ts:50-98 | a run that finishes leaves the same database whatever happened before it |
| Migrator.EffectsAreCommittedOnce | services/api-gateway/scripts/migrate.ts:55-95 | over any runs each file's effects are committed at most once, the legacy recovery of the first file included |
| Alerts.MoneyAlertMemory.Take | services/discord-bot/src/alerts.ts:188-215 | one poll: the memory and the lines posted are exactly the model's, nothing on the first poll |
| Alerts.OnlyTheFirstIsSilent | services/discord-bot/src/alerts.ts:211-215 | the first poll posts nothing, every later one all that it learned |
| Alerts.WinsArePostedOnce | services/discord-bot/src/alerts.ts:191-195 | two posts of one win are more than two hours apart, whatever the polls repeat and whenever pruning happens |
| Alerts.HoldsArePostedOnce | services/discord-bot/src/alerts.ts:196-201 | and so are two posts of one hold |
| Alerts.OnePollPostsOnce | services/discord-bot/src/alerts.ts:188-215 | within one poll nothing is posted twice, and no win or hold that is new is dropped |
| Alerts.ProfitsClimb | services/discord-bot/src/alerts.ts:202-210 | within a day a player is posted again only on more whole bars than any earlier post had, by the bar of the later poll |
| Limiter.PlayerCommandLimiter.AllowPlayerCommand | services/minecraft-bot/src/worker.ts:1274-1290 | one call: its answer and the new state are exactly the model's |
| Limiter.FortyAMinute | services/minecraft-bot/src/worker.ts:1276-1279 | in any minute at most forty commands pass |
| Limiter.FiveSecondsApart | services/minecraft-bot/src/worker.ts:1280-1283 | one identity's passes are at least five seconds apart, eviction included |
| Limiter.MemoryIsBounded | services/minecraft-bot/src/worker.ts:1284-1288 | the map never holds more than 4096 identities after a call |
| Limiter.SweepsLeaveForty | services/minecraft-bot/src/worker.ts:1284-1288 | right after a sweep at most forty are left |
| Snapshot.CountTotals | services/minecraft-bot/src/worker.ts:1572-1597 | totals per fingerprint are what the occupied, non-crafting slots hold of it and sum to all of them; an impossible count fails |
| Snapshot.AlwaysSound | services/minecraft-bot/src/worker.ts:1553-1625 | under every interleaving a healthy snapshot was acknowledged at the current revision, on the current connection, with the slots as they are, and no transfer runs |
| Snapshot.HealthyOnlyByAcknowledgement | services/minecraft-bot/src/worker.ts:1612-1618 | a snapshot becomes healthy only by an acknowledgement nothing happened since |
| Snapshot.TransfersNeverOverlap | services/minecraft-bot/src/worker.ts:1152-1167 | at most one transfer runs at a time, and while it runs no snapshot is trusted or taken |
| Snapshot.Inventory.Snapshot | services/minecraft-bot/src/worker.ts:1553-1569 | keeps the object valid; what it counts is what the slots hold, with no transfer under way |
| Snapshot.Inventory.Acknowledge | services/minecraft-bot/src/worker.ts:1612-1624 | keeps the object valid; a snapshot trusted afterwards is of this connection and of the slots as they are, with no transfer under way |
| Snapshot.Inventory.StartTransfer | services/minecraft-bot/src/worker.ts:1155-1167 | keeps the object valid; starts only with no transfer under way, on slots the gateway has taken as they are |
| Snapshot.Inventory.FinishTransferReconciliation | services/minecraft-bot/src/worker.ts:2000-2004 | keeps the object valid; leaves no transfer under way and nothing trusted |
| Receipts.Reporter.Post | services/minecraft-bot/src/api-client.ts:450-499 | the signed POST makes up to three attempts of one body and stops at the first that is taken |
| Receipts.Reporter.Report | services/minecraft-bot/src/report-retry.ts:28-45 | retrying runs until taken, refused for good, or out of delays |
| Receipts.Reporter.ReportReceipt | services/minecraft-bot/src/worker.ts:1071-1115 | a receipt's notice is reported, and its exact amount only once the notice was taken |
| Receipts.ReportBounds | services/minecraft-bot/src/report-retry.ts:28-45 | every report makes at least one and at most (delays + 1) * 3 attempts |
| Receipts.NothingIsSentAgain | services/minecraft-bot/src/report-retry.ts:34-37 | once an attempt is taken nothing of that report is sent again |
| Receipts.RefusalEndsTheReport | services/minecraft-bot/src/report-retry.ts:17-27 | a definite refusal costs its receipt no more than one post's attempts |
| ReceiptQueue.ChainFollowsTheLoop | services/minecraft-bot/src/worker.ts:1097-1115 | however arrivals, answers and delays interleave, the wire is at every moment a beginning of what reporting the receipts one after another puts there |
| ReceiptQueue.FinishedRunsAreOrdered | services/minecraft-bot/src/worker.ts:1097-1115 | and all of it once every report is over |
| ReceiptQueue.ReportsNeverOverlap | services/minecraft-bot/src/worker.ts:1097-1115 | at most one report is under way at any moment of any run |
| ReceiptQueue.WireIsOrderly | services/minecraft-bot/src/worker.ts:1080-1115 | receipts reach the gateway in the order they arrived, every attempt under its own receipt's event id |
| ReceiptQueue.NothingIsStuck | services/minecraft-bot/src/worker.ts:1102-1114 | whatever became of a receipt the one behind it may begin, and while any is left some step is possible |
| ReceiptQueue.EveryReceiptIsReported | services/minecraft-bot/src/report-retry.ts:28-45 | once all is over every receipt was tried at least once and at most (delays + 1) * 3 times |
| ReceiptQueue.RunsAreBounded | services/minecraft-bot/src/report-retry.ts:28-45 | the queue comes to rest: a run takes a bounded number of steps for each receipt that arrives |
| ReceiptQueue.PaymentReports.Queue | services/minecraft-bot/src/worker.ts:1097-1115 | a receipt joins the end of the chain whatever is under way |
| ReceiptQueue.PaymentReports.Answer | services/minecraft-bot/src/report-retry.ts:34-43 | an attempt's answer ends the report, repeats it after a rest or a delay, or gives it up |
| Odds.DefinedExactly | packages/provably-fair/src/index.ts:43-51 | only meaningless requests are refused, and the chance never exceeds the cap |
| Odds.HouseKeepsItsEdge | packages/provably-fair/src/index.ts:53-55 | chance times target never exceeds the stake less the edge, and one part per million more would, unless the cap holds it |
| Odds.ChanceIsMonotone | packages/provably-fair/src/index.ts:37-56 | a higher stake never wins less often, a dearer target never more often |
| Odds.RoundedWinsExactly | packages/provably-fair/src/index.ts:32-34 | rounding the product to a double takes the win from one sample at most: the last winner, when its product rounds up to the chance |
| Odds.RoundedWinnersAreCounted | packages/provably-fair/src/index.ts:32-34 | with rounding the number of winning samples is right to within one of the 2^52, and so is the published chance |

## Left out

- The gateway's side of operator payouts, sweeps and vault releases: their /pay commands are in the log like any other,
  a release can land, be given up or be sent again at any time, and their own rows, retries and bookings are not there.
- More than one paying bot: a withdrawal's payout belongs to the one worker.
- The order in which the gateway hands out jobs: any job that may be handed out can be.
- Jitter, streaks and back-off counters of reconnects: any gap the schedule can produce is possible.
- Chat components, NBT unwrapping and the wording of messages: a packet arrives as a receipt, refusal, cooldown or balance.
- Names are compared as given; the worker lowers both sides first.
- HMAC and SHA-256: only the texts they are given. Number printing: a number is the text JavaScript writes for it.
- claimJob's cross-check of identifiers: a withdrawal and its job share one identity here.
- ItemWalk.FingerprintText: the encoder is applied to the tagged data as a tree, since what normalizeItemData returns shares nothing.
- Properties that are not enumerable, symbol keys and extra properties of arrays: canonicalJson does not look at them.
- Rounding of doubles in the crate solver: reals instead. In the roll it is modelled by what rounding to nearest guarantees.
- Crate themes, the price ladder, the mystery sub-pool's contents and the final checks that only throw.
- The text layer of SQL scripts: a script is a list of statements, and a comment in front of BEGIN hides it as it does in the source.
- Item transfers beyond the flag and the snapshot: the adapters are foreign code.
- Money printing assumes ASCII input; other letters are not lowered.
- MinecraftWorker.Worker.SendPayout: the wait itself is the field `phase`, because a method cannot be suspended.
- PayoutPromises.EveryPayIsWellTimed: compares whole milliseconds, so an answer and a later /bal in the same millisecond are not told apart.
- PayoutPromises.PaidOnReceiptWasPaid: needs the session to hold no other /pay to that player, because a receipt names only player and amount.
- PayoutSafety.ReturnedMeansNeverPaid: does not speak for refunds an operator decides on in review, which can meet a payment; PayoutReviews.RefundIsSafeExactly says when they cannot.
- CrateWeights.WeightsAt: the check that the weights sum to the split's total is an assertion, because it never fires.
- LargestRemainder.Apportion: sorts by insertion, which is stable as the source's sort is.
