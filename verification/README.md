# Verified models of the trading agent's crash-tolerant core

This project models the parts of the trading agent that have to stay right when a process dies at
the worst moment, and proves what they promise. All proofs are for every input and every run.

**Order manager** (`Orders`, `SessionStore`, `OrderProtocol`, `OrderLadder`, `OrderSync`, `OrderInvariant`,
`OrderSteps`, `OrderSafety`, `OrderRun`, `Observation`, `OpenRound`). The durable store (order rows, claims, the shared
session budget), the remote broker and one leased worker form one state machine. Every database transaction
and every broker event is a step; `Crash` may come between any two and forgets what the worker held in memory.
POSTs travel on a wire the broker drains when it likes, so a timeout leaves the outcome unknown. Several cohorts
share one practice session, whose budget two other writers change at any time: a scheduled session and the import
of the account's broker history. Positions and open orders are read before a transaction opens; the broker may move
in between. The honest-broker assumptions are the enabling conditions of the broker's own steps:
a terminal status absorbs, cumulative fills never shrink, timestamps of one order's snapshots increase, a refusal
(the five status codes that `_dispatch` treats as a rejection) means the order was not accepted, and positions
move only with fills. Hashes of claim keys and exit keys are injective, so a client order id is its key. The one
worker lease is why rows of a symbol that a supervision pass still has to handle are not touched by another step.

**Paper broker, engine and restart** (`PaperBroker`, `PaperCosts`, `PaperAccounts`, `Recovery`, `Engine`,
`Planning`, `PaperRun`). `Recovery` is about any
engine step that keeps a small contract; `Engine` shows that the real bar step keeps it. The strategy is a
function of the bars seen so far, the risk check one of order, bar and account. Amounts are reals; rounding is
written out where the code rounds.

**Ledgers and account risk** (`Ledger`, `LedgerRounds`, `AllocationLedgers`, `AccountRisk`). Confirmed fills,
their costs, rounds and classes, and the account-wide limits with their flat-point recurrence.

**Sources** (`NewsPolling`, `VersionStore`, `HttpCache`, `Coverage`). Resumable pagination against a stable
provider, the immutable version store and its restore, the bounded response cache, and interval coverage.

**Migration** (`Migration`). The online replacement of a uniqueness constraint as catalog steps that may be
interrupted anywhere while other sessions insert.

**Causality** (`Causality`, `EvidenceRules`, `EventFolds`). Extraction and decision on dated evidence, with the
regular expressions as an abstract parser, and the temporal folds of the event model.

Where the code changes state step by step, the model has a class or a method with a loop, proved equal to a
specification function; the properties are proved about that function.

## What the proofs found

- Restoring the version store. `event_sources.py` lines 359-360 sort the seeds by first receipt, but the rows come
  from a query without an order (`src/tradeagent/event_runtime.py` lines 1814-1818). `EqualReceiptsCanReverse` gives
  a chain that comes back reversed; `SeedingRestores` gives the exact condition under which the store is rebuilt.
- Revalidating an extraction. `GenuineRevalidates` gives the one way a genuine extraction fails its own
  recomputation: the event, or an equal copy that carries annual revenue, stands among its own prior evidence.
  `ListedAgainstItself` is such an input. `available_prior_evidence` (`src/tradeagent/event_brief.py` line 134) never
  produces one.
- A refused paper order is not always without effect (`src/tradeagent/broker.py` lines 141-174): a fill price that
  rounds to zero is rejected by the fill record after the position has moved, although no cash has.
  `TinyCloseMovesPosition` is such an input and `RaiseMovesPosition` says exactly when it happens; a close of a
  millionth or more rules it out. The accounting identity survives it, and since the bar appends no checkpoint a
  restart continues from the state before it.

## Model

| member | source | states |
|---|---|---|
| `OrderSafety.NoOversell` | src/tradeagent/event_orders.py:1640-1743 | In every reachable state, with a crash possible between any two commits, the broker's true position of a symbol is nonnegative and covers everything any stored sell may still sell: the open remainder of a working sell, or the whole of one that is on the wire or could still be posted. |
| `OrderSafety.AtMostOnePost` | src/tradeagent/event_orders.py:876-907 | A client order id is posted at most once in any run; a row that is still approved has never been posted. |
| `OrderSafety.ObservationNeverRaises` | src/tradeagent/event_orders.py:1282-1350 | In any reachable state any published snapshot of any stored order can be delivered without an error, never lowers the recorded fill, and leaves a final row as it is. |
| `OrderSafety.StoredStatusIsTrue` | src/tradeagent/order_state.py:113-125 | In every reachable state a row that has heard from the broker holds the fill and the status of one published snapshot, status by status; a final row holds the broker's last word, which is filled, canceled, expired or rejected as the row says, and only an order still working can carry the manager's own cancel mark. |
| `OrderSafety.ReconcilesWhenFinal` | src/tradeagent/event_orders.py:213-298 | Once every row is final, the broker's position of every symbol is the inventory summed from the rows. |
| `OrderSafety.BudgetConserved` | src/tradeagent/event_orders.py:677-764 | The session's total equals the buy rows whose reservation was never released, plus an outstanding scheduled entry, plus the imported account buys this store did not place; news entries likewise without the last two. The session's own charged and scheduled entries are at most two, and never more than that are posted, at most one of them for news. |
| `OrderSafety.ExternalIsForeign` | src/tradeagent/paper_account_history.py:366-378 | In every run the buys counted as bought outside are exactly those the last accepted import reported for which the store had no row then; before any accepted import there are none. |
| `OrderSafety.SchedulesOnce` | src/tradeagent/scheduled_paper.py:975-992 | In any run at most one scheduled session takes an entry out of the budget, before any equipment test, and the budget remembers whose it is. |
| `OrderSafety.UnsentIsReleased` | src/tradeagent/event_orders.py:1202-1269 | In every reachable state expiry releases every approved buy and no other, and the dispatch that holds a claimed but unsent buy can release it: the row expires and exactly its own counters go down by one. |
| `OrderSafety.UnsentExitExpires` | src/tradeagent/event_orders.py:1040-1056 | In every reachable state an exit its dispatch claimed but did not send expires and costs the budget nothing. |
| `OrderSafety.ReleasedIsNeverPosted` | src/tradeagent/event_orders.py:1202-1269 | However a run goes on after a release, the row stays as it is, its order has never been posted, and it is not released again. |
| `OrderSafety.CounterMismatchUnreachable` | src/tradeagent/event_orders.py:1236-1258 | The release transaction can never raise its counter-mismatch error. |
| `OrderSafety.FinalRowsStay` | src/tradeagent/event_orders.py:1282-1350 | No step of the protocol changes a final row. |
| `OrderSafety.FinalRowsAreForever` | src/tradeagent/event_orders.py:1282-1350 | However a run goes on, a row that was once final stays as it is. |
| `OrderSafety.EntryReservesFresh` | src/tradeagent/event_orders.py:700-836 | A reserved entry finds every row of the session final, appends exactly one row with an unused id, and keeps the total, imported buys included, within the entry limit; whatever an earlier read of the broker said, the broker is idle at that commit. The row carries the intent's cohort, symbol, quantity, times and class. |
| `OrderSafety.EntryReservedWhen` | src/tradeagent/event_orders.py:666-790 | In every reachable state an entry is reserved if and only if its claim is unspent, no other scheduled session holds the entry, everything local is final and nothing is held, the broker looked idle, no news entry is charged before a news entry nor an equipment test before another, and charged plus imported buys are below the limit. |
| `OrderSafety.ExitReservesFresh` | src/tradeagent/event_orders.py:1640-1743 | A reserved exit finds every row final, its id was unused, its quantity is both the inventory and the broker's true position, and although positions and open orders were read earlier nothing is open or on the wire at that commit. |
| `OrderSafety.ExitKeepsDeadline` | src/tradeagent/event_orders.py:1656-1743 | A reserved exit closes a filled buy of its own cohort and symbol and is stored with that buy's deadline and class, its own time, and nothing sent or filled. |
| `OrderSafety.ReservedIdsAreFresh` | src/tradeagent/event_orders.py:842-873 | Every step adds at most one row, and only with an id no row has: the primary key never rejects a reservation. |
| `OrderSteps.RunKeeps` | src/tradeagent/event_orders.py:464-1743 | Every state after any sequence of enabled steps from the empty store satisfies the protocol invariant. |
| `OrderRun.RoundTrip` | src/tradeagent/event_orders.py:464-1743 | The protocol can do its work: every admissible first entry can be reserved, posted, filled, recorded and sold again, ending with two final rows and a flat account. |
| `OrderRun.EntryCanFill` | src/tradeagent/event_orders.py:876-1200 | Every admissible first entry can be posted once and its fill recorded, leaving exactly that row, claim and budget. |
| `OrderLadder.LadderInventory` | src/tradeagent/event_orders.py:361-368 | In a session's rows, where a buy is reserved only when flat and a sell asks for all that is held, the inventory of a symbol is what the one open holding says. |
| `OrderLadder.ExitFindsEverythingFinal` | src/tradeagent/event_orders.py:1680-1693 | A cohort that owns something while its own rows are final shows that every row of the whole session is final. |
| `OrderLadder.ExitIdFresh` | src/tradeagent/event_orders.py:1677-1682 | Numbering an exit by the count of the cohort's sells gives an id no earlier row has. |
| `OrderSync.FinalIsSettled` | src/tradeagent/event_orders.py:1282-1350 | A final row has nothing on the wire or working at the broker, and its fill is the broker's true fill. |
| `OrderSync.ObserveSynced` | src/tradeagent/event_orders.py:1282-1350 | Delivering any published snapshot to a row tied to its broker record keeps the tie and its intent, and does not lower the fill. |
| `Observation.ObservationConverges` | src/tradeagent/event_orders.py:1282-1350 | Delivering one order's snapshots in any order, repeated at will and with cancel marks in between, never raises and leaves the fill, broker id and payload of the newest snapshot delivered; the row is final exactly when that snapshot is terminal. |
| `Observation.DeliveryOrderIsIrrelevant` | src/tradeagent/event_orders.py:1282-1350 | Two delivery orders with the same newest snapshot, cancel marks included, store rows that agree in fill, broker id, payload and finality; without marks, or once that snapshot is terminal, the rows are the same. |
| `Observation.ReceivingIsMonotone` | src/tradeagent/event_orders.py:1282-1350 | Whatever snapshots arrive, from an honest broker or not, as long as none raises: all were of this order, the intent stands, the fill never falls nor passes the quantity, the row repeats one of them, and a final row became active again only by a larger fill. |
| `Observation.ObserveFinal` | src/tradeagent/event_orders.py:1305-1332 | When a snapshot raises and when it reopens a final row, as conditions on the two fills, the two times and whether the statuses are final. |
| `SessionStore.Store.SubmitEntry` | src/tradeagent/event_orders.py:666-836 | The entry transaction in place: same refusals in the same order, same claim, budget and row as the reservation function the protocol steps use. |
| `SessionStore.Store.ExpireUnsentInPlace` | src/tradeagent/event_orders.py:1202-1269 | The release transaction in place: untouched, mismatch, or row expired and counters given back. |
| `SessionStore.Store.ImportHistoryInPlace` | src/tradeagent/paper_account_history.py:347-379 | The import of broker history in place: refused over unresolved or omitted local orders or vanished earlier buys, else the counter grows by exactly the newly found buys that are not local. |
| `SessionStore.ImportCounts` | src/tradeagent/paper_account_history.py:347-378 | An import is accepted if and only if every local order is settled and in the history and no buy counted before is gone; then it counts exactly the buys no local row has and raises the total by one for each new one, and changes nothing else. |
| `SessionStore.OwnBuysAreNotCharged` | src/tradeagent/paper_account_history.py:366-378 | With nothing external counted, importing only the store's own buys changes nothing. |
| `SessionStore.ImportAgain` | src/tradeagent/paper_account_history.py:366-378 | Importing the same history again changes nothing. |
| `SessionStore.Store.Claim` | src/tradeagent/event_orders.py:886-901 | The compare-and-set in place: wins exactly on an approved row. |
| `SessionStore.Store.ObserveInPlace` | src/tradeagent/event_orders.py:1282-1350 | Folding a snapshot into the stored row in place, including the two raised outcomes and the ignored one. |
| `SessionStore.Store.SubmitExit` | src/tradeagent/event_orders.py:1683-1743 | The exit transaction in place: nothing if an own row is active, else one sell row for all that is owned. |
| `SessionStore.HeldInventory` | src/tradeagent/event_orders.py:361-368 | The inventory dictionary holds exactly the symbols with a nonzero signed fill sum, with that sum. |
| `SessionStore.OpenBuysLoop` | src/tradeagent/event_orders.py:1645-1655 | The exit loop's list of buys since the running quantity last returned to zero. |
| `Orders.OpenBuysCoverInventory` | src/tradeagent/event_orders.py:1645-1656 | The exit loop's buys always cover the inventory, so the list is nonempty whenever something is owned. |
| `OpenRound.ActiveBuys` | src/tradeagent/event_orders.py:1474-1484 | The protection trigger's loop keeps, for every symbol, exactly the exit loop's list, on every list of rows. |
| `OpenRound.OpenRoundsAgree` | src/tradeagent/event_orders.py:1640-1656 | In every reachable state and for every cohort and symbol, the exit loop has buys exactly when the ledger has an unclosed round of that symbol; then they are that round's buys and the inventory is its running quantity. |
| `OpenRound.ExitDeadlineDefined` | src/tradeagent/event_orders.py:1656-1656 | Whenever supervision finds something owned, the owned quantity is positive and the list whose earliest exit time it takes is not empty. |
| `Ledger.Economics` | src/tradeagent/event_performance.py:110-192 | The accumulator loop reports positions, missing marks, unvalued rows, P&L, fees, residual costs and notionals as sums over the rows, valued exactly when every fill is priced and every open symbol marked. |
| `Ledger.NetsMarkLikeFills` | src/tradeagent/event_performance.py:140-165 | Marking each symbol's net quantity once equals marking every fill. |
| `Ledger.CostsOfFill` | src/tradeagent/event_performance.py:142-148 | What a filled, priced row costs: half a basis point of its notional, and for a sale the larger of a cent and the two fee rates. |
| `Ledger.TradingAtTheMark` | src/tradeagent/event_performance.py:140-192 | One more trade at the mark leaves broker P&L as it is and lowers economic P&L by exactly its costs. |
| `Ledger.PricedAndMarked` | src/tradeagent/event_performance.py:84-192 | A ledger is valued if and only if every fill has a positive price and every open symbol a mark. |
| `AllocationLedgers.ConfirmedRowsRepresent` | src/tradeagent/event_performance.py:94-107 | One row survives per client order id, and it is one with the largest confirmed fill. |
| `AllocationLedgers.ConfirmedIsLatest` | src/tradeagent/event_performance.py:94-107 | Among the rows of one id with the largest fill it is the last that survives. |
| `LedgerRounds.TradeRounds` | src/tradeagent/event_performance.py:258-277 | The loop that opens and closes rounds computes the rounds the following lemmas are about. |
| `LedgerRounds.RoundsPartition` | src/tradeagent/event_performance.py:258-277 | Joining the rounds of one symbol and class gives back exactly the filled rows of that symbol and class, in order. |
| `LedgerRounds.EarlierRoundsClosed` | src/tradeagent/event_performance.py:258-277 | Of two rounds of one symbol and class the earlier nets to zero, and no round nets to zero before its end. |
| `LedgerRounds.RoundsConserve` | src/tradeagent/event_performance.py:258-277 | Whatever only fills contribute to adds up over the rounds of a class to the class ledger. |
| `AllocationLedgers.ClassesValueAggregate` | src/tradeagent/event_performance.py:351-371 | When all three class ledgers are valued, so is the aggregate. |
| `AllocationLedgers.ClassValuesRounds` | src/tradeagent/event_performance.py:251-340 | When a class ledger is valued, so is each of its rounds. |
| `AllocationLedgers.LedgersDecompose` | src/tradeagent/event_performance.py:351-371 | Broker P&L, economic P&L, fees and residual costs of the aggregate are the sums over the three classes, and those of each class the sums over its rounds. |
| `AllocationLedgers.ReportAddsUp` | src/tradeagent/event_performance.py:343-371 | What the allocation report itself says: three valued class reports imply a valued aggregate report whose P&L, fees and residual costs are their sums. |
| `AccountRisk.RunningPeak` | src/tradeagent/event_account_risk.py:130-147 | The incremental cash and inventory loop computes the peak over flat points. |
| `AccountRisk.RecurrenceRefinesLedger` | src/tradeagent/event_account_risk.py:130-147 | At a flat point the running cash is the economic P&L the full ledger gives for that prefix, whatever the marks. |
| `AccountRisk.PeakIsGreatestFlatEquity` | src/tradeagent/event_account_risk.py:130-147 | The loop's peak is the greatest of its start and the full ledger's economic equity over all flat prefixes, and is attained. |
| `AccountRisk.BoundaryEquityIsFlat` | src/tradeagent/event_account_risk.py:88-108 | An equity before a boundary exists only when everything filled before it was closed before it; then it is the running cash of those rows. |
| `AccountRisk.RatchetOnlyTightens` | src/tradeagent/event_account_risk.py:118-154 | Over any sequence of calls with any settings, marks and histories the saved peak never falls and no limit rises. |
| `AccountRisk.BlocksAtTheLimits` | src/tradeagent/event_account_risk.py:155-159 | An assessment blocks if and only if the loss since the day start reaches the saved daily limit, or since the week start the weekly, or below the saved peak the drawdown limit; a refused one changes nothing. |
| `AccountRisk.LimitIsLeast` | src/tradeagent/event_account_risk.py:118-129 | After any calls from no saved row each saved limit is the least of its initial amount (50, 50, 150) and its own fraction of the equity over all assessed calls, and is attained. |
| `AccountRisk.PeakIsGreatestSeen` | src/tradeagent/event_account_risk.py:130-154 | After any calls from no saved row the saved peak is the greatest of the capital and every current, boundary and historical equity any assessment looked at, and is attained. |
| `AccountRisk.CapitalIsFirst` | src/tradeagent/event_account_risk.py:60-60 | The saved capital is the equity setting of the first assessed call, and there is a saved row exactly when a call was assessed. |
| `AccountRisk.AssessedEquities` | src/tradeagent/event_account_risk.py:75-113 | An assessment values the account at its marks and at the starts of the day and the week: there by the rows filled by then, all closed, and the imported history up to then. |
| `AccountRisk.HistoricalPeakIs` | src/tradeagent/event_account_risk.py:130-147 | The historical peak is the greatest of the capital with the imported history's peak on top and of the economic equity, imported P&L included, at every moment all was closed. |
| `AccountRisk.BlockedStaysBlocked` | src/tradeagent/event_account_risk.py:155-159 | An equity whose losses have once reached a limit at given day and week starts reaches one at those starts for ever. |
| `AccountRisk.PeakCovers` | src/tradeagent/event_account_risk.py:118-159 | Every assessment's saved peak covers the current equity, both boundary equities and the ledger's equity at every flat point. |
| `AccountRisk.RiskControl.AssessInPlace` | src/tradeagent/event_account_risk.py:27-187 | The assessment in place: same readings, same ratchet, and an untouched row when something cannot be valued. |
| `PaperBroker.AccountingIdentity` | src/tradeagent/broker.py:98-175 | After any run of marks and submissions, refused and failed ones included, cash plus cost basis plus unallocated entry commission equals starting cash plus realized P&L, and cash and quantities are nonnegative. |
| `PaperBroker.RunOps` | src/tradeagent/broker.py:98-175 | Every state of such a run is balanced and has no negative amount. |
| `PaperBroker.CommissionBelowNotional` | src/tradeagent/broker.py:25-26 | Half-up rounding to four places never makes a commission of at most 100 basis points exceed the notional, nor negative. |
| `PaperBroker.SubmitKeeps` | src/tradeagent/broker.py:107-175 | One submission keeps the identity and the signs whatever its outcome. |
| `PaperBroker.RaiseMovesPosition` | src/tradeagent/broker.py:107-175 | A submission that raises leaves some quantity changed if and only if it is a fresh market order for the bar's symbol that passes the position and liquidity checks while the adjusted close is below half the last price decimal; then the close is below a millionth, the order's symbol moved by the fill quantity, and cash, marks, fills and watermark are unchanged. |
| `PaperBroker.TinyCloseMovesPosition` | src/tradeagent/broker.py:107-175 | A concrete case: one share bought at a close of a ten-millionth raises and is held, unpaid and unrecorded. |
| `PaperBroker.RemarkIsIdle` | src/tradeagent/broker.py:98-106 | Marking again with the bar that was marked last changes nothing. |
| `PaperBroker.Broker.SubmitOrder` | src/tradeagent/broker.py:107-175 | The broker object's submit in place: refusals in order, the repeated id, the partial fill, and the failure that comes after the position moved. |
| `PaperBroker.Broker.MarkBar` | src/tradeagent/broker.py:98-106 | The broker object's mark in place: session roll, mark, watermark. |
| `PaperBroker.Broker.Account` | src/tradeagent/broker.py:177-209 | Reading the account in place, which may raise the watermark and may fail validation. |
| `PaperCosts.SubmitAtFairTerms` | src/tradeagent/broker.py:107-175 | A fresh market order for the bar's symbol is executed if and only if it is affordable at the fair terms, stated without the broker's formulas: the price is the multiple of a millionth nearest to the close plus, for a sale minus, slippage and half the spread; the quantity the order's or the whole shares of the participation; the commission the nearest ten-thousandth. Cash, holdings and the recorded fill then follow from these terms. |
| `PaperCosts.ExecutedPrice` | src/tradeagent/broker.py:119-126 | An executed buy's price is within half a millionth of the close raised by slippage and half the spread, a sale's of the close lowered by them. |
| `PaperCosts.ThereAndBackLoses` | src/tradeagent/broker.py:107-175 | Trading a quantity and trading it back on one close restores the holding, never gains cash, and loses some once the costs exceed the rounding. |
| `PaperAccounts.ExecuteMovesPosition` | src/tradeagent/broker.py:141-163 | A fill moves exactly its symbol's position: a buy averages its price in and adds its commission, a sale keeps the average, takes out its share of the entry commission and realizes the difference. |
| `PaperAccounts.FlatAccountIsCash` | src/tradeagent/broker.py:98-175 | After any run that ends with nothing held, cash is the starting cash plus everything realized. |
| `PaperAccounts.WatermarkIsGreatest` | src/tradeagent/broker.py:98-106 | After any run the high watermark is the greatest of the starting cash and the equity after every operation that marked the account, and is attained. |
| `PaperAccounts.MarkKeepsDayStart` | src/tradeagent/broker.py:98-106 | The first mark of a session keeps the equity the day began with; later marks of it leave it alone. |
| `PaperAccounts.AccountReads` | src/tradeagent/broker.py:177-198 | Reading a settled account shows cash, equity, day start and watermark to half a ten-thousandth and exactly the nonzero holdings, and is refused exactly when one of the last three rounds to nothing or less. |
| `PaperAccounts.EquityFollowsMarks` | src/tradeagent/broker.py:200-208 | Moving one mark moves the equity by what is held of that symbol times the move. |
| `PaperAccounts.FlatEquityIsCash` | src/tradeagent/broker.py:200-208 | With nothing held the equity is the cash. |
| `Engine.CrashResumeEqualsUninterrupted` | src/tradeagent/cli.py:1817-1885 | Any number of sessions, each stopped after any append, followed by one that is not stopped, leave a ledger from which a restart rebuilds exactly the state of the run that never stopped, at the same bar; and no decision ever has two different recorded fills. |
| `Recovery.ResumeEqualsUninterrupted` | src/tradeagent/cli.py:1817-1885 | The same for any engine step that keeps the step contract. |
| `Recovery.CrashesKeepLedger` | src/tradeagent/cli.py:1817-1859 | After any crashes the ledger stays consistent: its last checkpoint and progress name states of the uninterrupted run with only unfilled bars between them, and every recorded fill is that run's. |
| `Recovery.OneFillPerDecision` | src/tradeagent/engine.py:94-108 | Two recorded fills of one decision are the same fill. |
| `Recovery.RecoverIs` | src/tradeagent/cli.py:1820-1859 | Checkpoint plus replayed marks is the state before the first bar without progress, or the state after it when its checkpoint had been written. |
| `Recovery.RunKeepsLedger` | src/tradeagent/engine.py:133-192 | Wherever an engine run stops, its appended prefix keeps the ledger consistent, and unstopped it gets as far as the uninterrupted run. |
| `Engine.EngineIsResumable` | src/tradeagent/engine.py:42-131 | The bar engine keeps the step contract: a filled bar checkpoints before its progress, an unfilled bar only marks, and a bar processed again on the state that holds its fill changes nothing. |
| `Engine.ProcessAgain` | src/tradeagent/engine.py:42-131 | Reprocessing a bar whose fill is already in the broker returns the same state and at most repeats the same fill record. |
| `Planning.PlanReachesTarget` | src/tradeagent/engine.py:194-215 | No order is planned if and only if the holding is the target, the whole k with k times the close at most the target notional and k + 1 times above it (towards zero for a negative one); an order has a positive quantity, buys exactly when the holding must grow, and filled whole takes it to the target. |
| `Planning.PlanSettles` | src/tradeagent/engine.py:194-215 | After the planned order is filled whole the same equity and bar plan nothing more. |
| `Planning.RunMovesToTargets` | src/tradeagent/engine.py:42-131 | Every bar of an uninterrupted run moves its symbol's holding towards the target of the marked equity and never past it, reaches it if the fill is not cut short, touches no other holding, and without a fill has found the target met or the order refused. |
| `Planning.IdleBarHolds` | src/tradeagent/engine.py:42-60 | A bar whose strategy has no intent leaves every holding alone. |
| `Planning.OnlyApprovedOrdersTrade` | src/tradeagent/engine.py:74-110 | Nothing is submitted or filled that the risk check of this bar's account did not approve, and the ledger records what the check found. |
| `PaperRun.TradingEngine.ProcessBar` | src/tradeagent/engine.py:42-131 | The engine object's bar in place appends and mutates as the step specification says, also where it raises. |
| `PaperRun.TradingEngine.Run` | src/tradeagent/engine.py:133-192 | The engine object's run loop appends exactly the specified events of an unstopped session. |
| `PaperRun.PaperCommand` | src/tradeagent/cli.py:1817-1885 | Restarting on any ledger crashes can leave behind appends exactly what the session model says and leaves such a ledger again. |
| `NewsPolling.CoverageIsSound` | src/tradeagent/event_sources.py:535-655 | Over any run of polls with any failures, page bounds and changing requests, every interval ever reported complete has every listed article remembered, and its watermark lies after its start and is the earliest of the pinned end and the times the other sources, none of which failed, were verified to. |
| `NewsPolling.PollIsSound` | src/tradeagent/event_sources.py:535-655 | The same for one poll from any sound cursor, and the cursor it leaves is sound. |
| `NewsPolling.ReadIsSound` | src/tradeagent/event_sources.py:689-802 | Whatever fails in the page loop, the cursor stands only behind pages remembered whole, and a read that returns has remembered the whole listing. |
| `NewsPolling.RetriesFinish` | src/tradeagent/event_sources.py:689-802 | However many pages an interval has, as many failure-free polls as the page bound needs complete it, with the first poll's end pinned although later polls ask for later ends. |
| `NewsPolling.PagesNeverRepeat` | src/tradeagent/event_sources.py:689-802 | However polls fail and resume, the pages read for one pinned interval never repeat, even if the provider's tokens run in a circle. |
| `NewsPolling.EventSourceClient.ReadNews` | src/tradeagent/event_sources.py:689-802 | The page loop in place equals the page-reading specification. |
| `NewsPolling.EventSourceClient.PollSources` | src/tradeagent/event_sources.py:535-655 | The poll in place equals the poll specification. |
| `VersionStore.ChainsAreLinear` | src/tradeagent/event_sources.py:506-533 | After any receipts the versions of each source item form one linear revision chain with one cluster, the latest map names its end, and nothing else is stored. |
| `VersionStore.ReobservationIsIdle` | src/tradeagent/event_sources.py:506-518 | Observing a version again never changes anything stored; it is a collision if and only if one of the two hashes differs. |
| `VersionStore.SeedingRestores` | src/tradeagent/event_sources.py:359-360 | Seeding a fresh client with exactly the stored rows rebuilds the same maps if and only if sorting them by receipt lists every chain in chain order. |
| `VersionStore.RestoreExactly` | src/tradeagent/event_sources.py:506-533 | Feeding stored versions back one by one rebuilds the same maps if and only if they list every chain in chain order. |
| `VersionStore.StrictReceiptsRestore` | src/tradeagent/event_sources.py:359-360 | With receipts strictly increasing along every chain, any row order restores the store. |
| `VersionStore.OrderedRowsRestore` | src/tradeagent/event_sources.py:359-360 | With receipts that never decrease along a chain, rows listed in chain order restore the store. |
| `VersionStore.EqualReceiptsCanReverse` | src/tradeagent/event_sources.py:359-360 | With equal receipts a two-version chain can come back reversed: its first version then revises its second. |
| `VersionStore.VersionClient.RememberEvent` | src/tradeagent/event_sources.py:506-533 | Remembering in place equals the specification, collision included. |
| `HttpCache.CacheIsFaithful` | src/tradeagent/event_sources.py:408-504 | After any requests both bounds hold, verification times exist for exactly the cached keys, the list is ordered by last use, and every entry holds the provider's last full answer for its key with that answer's receipt time, and its age counts from the provider's last answer or confirmation. |
| `HttpCache.AnswersAreFaithful` | src/tradeagent/event_sources.py:408-482 | Whatever a request returns is the provider's last full answer for that key and its first receipt. |
| `HttpCache.AnsweredWhen` | src/tradeagent/event_sources.py:408-482 | After any requests: the next one is answered if and only if the cached answer is younger than its time to live, counted from the provider's last answer or confirmation, or the provider answers in full, or it confirms what is cached. |
| `HttpCache.VerifiedIsLastContact` | src/tradeagent/event_sources.py:408-504 | Each cached key's verification time is that of the provider's last full answer or confirmation for it. |
| `HttpCache.EvictsLeastRecent` | src/tradeagent/event_sources.py:493-501 | A stored answer evicts only entries used longer ago than all that stay, and no more of them than it must. |
| `HttpCache.RevalidationKeepsBody` | src/tradeagent/event_sources.py:469-474 | A 304 answer (section 15.4.5 of RFC 9110) keeps the body and its first receipt, refreshes its age and evicts nothing. |
| `HttpCache.ResponseCache.CacheResponse` | src/tradeagent/event_sources.py:484-504 | Storing in place keeps the byte count equal to the sum of stored bodies and both bounds, and equals the specification. |
| `HttpCache.ResponseCache.Fetch` | src/tradeagent/event_sources.py:408-482 | A request in place equals the request specification. |
| `Migration.UniquenessIsNeverLost` | migrations/versions/0013_trade_event_identity.py:149-270 | At every point of every history, interrupted anywhere and with concurrent inserts, the old or the new uniqueness constraint is in force and no trade is stored twice. |
| `Migration.UpgradeRerunFinishes` | migrations/versions/0013_trade_event_identity.py:149-270 | However often an upgrade was interrupted, one run the database completes ends with the new constraint and without the old one, rows unchanged. |
| `Migration.UpgradeMeetsNoDuplicates` | migrations/versions/0013_trade_event_identity.py:190-212 | The build of an upgrade never finds duplicates, because the old key is a subset of the new. |
| `Migration.DowngradeRerunFinishes` | migrations/versions/0013_trade_event_identity.py:149-270 | A downgrade rerun finishes if and only if the rows can carry the old key; otherwise neither constraints nor rows change. |
| `Migration.FailedRunChangesNothing` | migrations/versions/0013_trade_event_identity.py:149-270 | Over every history with failures, crashes and concurrent inserts the migration never touches a row, and until a swap commits it touches no constraint. |
| `Migration.SwapAdoptsExactIndex` | migrations/versions/0013_trade_event_identity.py:213-270 | A swap that commits leaves the new constraint unique, immediate and on its columns, built on an index that was unique, standard, plain, complete and free, removes the old constraint, and changes no other constraint, index or row. |
| `Migration.PreparationDropsOnlyUnfinished` | migrations/versions/0013_trade_event_identity.py:149-212 | Before the swap only an unfinished, free index under the migration's own two names is ever dropped; no constraint, row or other index is touched. |
| `Migration.TradeTable.RerunUpgrade` | migrations/versions/0013_trade_event_identity.py:358-371 | The upgrade in place, after any history of interrupted upgrades and inserts: when the database completes its steps the table ends migrated with the rows it had. |
| `Migration.TradeTable.Migrate` | migrations/versions/0013_trade_event_identity.py:149-270 | Preparation and swap in place equal the step machine. |
| `Coverage.CoverageReport` | src/tradeagent/event_brief.py:218-247 | The sweep's watermark is the one first moment from the start that no valid poll covers; completeness and the uncovered interval follow from it, and the incomplete polls are counted. |
| `Coverage.OrderIsIrrelevant` | src/tradeagent/event_brief.py:218-235 | The watermark depends only on which valid intervals there are, not on poll order or repetition. |
| `EventFolds.BuildEvents` | src/tradeagent/economic_ml.py:94-150 | The event loops emit, in order, exactly the kept symbols of every frame from the 64th to the last with a settled outcome. |
| `EventFolds.BuiltEventsAre` | src/tradeagent/economic_ml.py:94-150 | The built events are exactly the kept symbols of every frame from number 63 whose outcome, six frames later, exists. |
| `EventFolds.MakeFolds` | src/tradeagent/economic_ml.py:251-273 | The fold loop terminates with every fold that fits, each the stated date blocks. |
| `EventFolds.NoLabelLeakage` | src/tradeagent/economic_ml.py:99-102 | In every fold each training outcome frame is at or before every test signal frame, although folds count event dates and outcomes count frames. |
| `EventFolds.BuiltFoldsDoNotLeak` | src/tradeagent/economic_ml.py:94-273 | For the events built from any frames, symbols and selection: whatever a fold trains on was settled by the frame of whatever it tests. |
| `EventFolds.TestedOnce` | src/tradeagent/economic_ml.py:262-273 | Test blocks are disjoint and contiguous: a fold tests exactly the events dated from its first test date up to the next fold's. |
| `EventFolds.FoldHoldsDates` | src/tradeagent/economic_ml.py:251-273 | By number of its date, fold k trains on an event exactly from 126k to 126k + 503 and tests it exactly from 126k + 509 to 126k + 634. |
| `Causality.ExtractionIgnoresLater` | src/tradeagent/event_research.py:424-430 | Evidence available only after the clock changes no field of an extraction, wherever it stands. |
| `Causality.DecisionIgnoresLater` | src/tradeagent/event_research.py:737-743 | Nor any field of a decision. |
| `Causality.EligibleIsRecomputed` | src/tradeagent/event_research.py:735-790 | An eligible decision rests on exactly the packet its extraction names, id for id, recomputes to the same facts, issuer, cluster, kind, availability and release, and knows of no correction; so an altered extraction always abstains. |
| `Causality.GenuineRevalidates` | src/tradeagent/event_research.py:743-773 | A genuine extraction differs from its recomputation if and only if its available prior evidence held the event itself, which contributes facts, or an equal copy of it, which contributes annual revenue. |
| `Causality.ListedAgainstItself` | src/tradeagent/event_research.py:471-490 | A concrete case: a guidance release extracted with itself as prior evidence abstains when decided; with an equal copy instead it passes recomputation. |
| `Causality.GuidanceAlternates` | src/tradeagent/event_research.py:507-508 | Whatever the texts, the guidance facts strictly alternate between prior and new, so the strict pairing never fails. |
| `Causality.GuidancePairsLineUp` | src/tradeagent/event_research.py:953-960 | A decision compares each new guidance value with the prior value of the same sentence. |
| `Causality.DecisionMeasures` | src/tradeagent/event_research.py:946-990 | A decision reports the smallest relative revision over the pairs with a positive prior midpoint, exactly for earnings with guidance that have such a pair, and the ratio of contract value to annual revenue exactly for a valued contract with one value, one duration and one positive revenue. |
| `Causality.MidpointIsScaled` | src/tradeagent/event_research.py:152-158 | A fact's midpoint is half the sum of its bounds in millions, billions or units as its scale says. |
| `EvidenceRules.GuidanceStates` | src/tradeagent/event_research.py:297-321 | Each guidance sentence gives two facts in a row: its old amount as prior and its new amount as new guidance, with its metric, basis, period and span. |
| `EvidenceRules.ContractStates` | src/tradeagent/event_research.py:335-360 | Each contract sentence gives its value and its duration in months. |
| `EvidenceRules.AnnualStates` | src/tradeagent/event_research.py:322-334 | Each annual revenue sentence gives one fact with its amount and period. |
| `EvidenceRules.ExtractionHeader` | src/tradeagent/event_research.py:555-600 | An extraction is available when the last of its packet is, names the event's cluster and issuer, and carries a contradiction whenever a model answer is malformed or differs from what was extracted. |
| `EvidenceRules.FactsAreFromTrustedEvidence` | src/tradeagent/event_research.py:471-490 | An extraction's facts are exactly those read from the event and the annual revenues read from prior evidence available by its clock, of the same issuer, verified, unaltered and readable; each names its evidence. |
| `EvidenceRules.KindFollowsFacts` | src/tradeagent/event_research.py:492-506 | The kind of an extraction as conditions on which facts it has; guidance and a contract together are a contradiction. |
| `EvidenceRules.EligibleEvidenceIsClean` | src/tradeagent/event_research.py:735-800 | An eligible decision's cluster was not decided before, nothing available corrects or retracts what it rests on, and no other item of its packet is of another issuer, unverified, altered, unreadable, mapped too late, corrected or retracted. |
| `Causality.ParseFacts` | src/tradeagent/event_research.py:297-350 | The parsing loops produce the facts of the three grammars in order. |
| `Causality.CollectFacts` | src/tradeagent/event_research.py:471-490 | The packet loop collects the facts and errors of the specification. |

## Left out

- Entry gates: the quote, spread, certificate, asset and calendar checks of `submit_entry` and the revalidation in
  `_dispatch` are one nondeterministic outcome each; each is settled by reading one branch.
- Freshness and valuation checks of an imported broker history, and its effect on other days' budgets. Orders placed
  outside this system are taken to be closed and flat, as the import requires; they change the budget, not positions.
- Sessions without a practice budget, and the handover to recovery managers of other cohorts.
- Exit liveness: a sell left approved by a crash blocks later exits; only safety is claimed.
- The protocol lets a dispatch be started again for any row at any time, which the code does in fewer places; this
  only adds runs.
- Audit rows, notifications, email, reports and dashboards, market totals, the order stream queue, demo and news
  switches.
- Risk engine order times and the engine's order and rejection counters, which a restart forgets; the configuration
  fingerprint check of the paper command.
- Sorting of positions and fills in an exported broker state, and performance metrics computed after the last append.
- Ratios, stress scenarios, thesis fields and labels of the performance reports.
- `AccountRisk.PeakCovers`: for rows with one entry per client order id, as the primary key guarantees.
- Immutable version collisions inside the news loop: versions are hashes of the raw row, taken as injective.
- Retry-after blocking, request spacing and the size bound of a download are one refusal of `HttpCache.Request`.
- Null values in the uniqueness keys, and the SQLite path of the migration.
- Mixed migration directions: an interrupted downgrade followed by an upgrade raises because of the leftover index.
- An unfinished index is modelled as enforcing nothing, which allows more concurrent inserts than the database does.
- Market, quote, eligibility and threshold reasons of `decide_event` are one function of the extraction, the event and
  the annual-revenue reference; text, timestamp and numeric consistency checks of `extract_event` are functions of the
  event and its facts.
- `Causality.Extract`: the hashes of prompt, schema, configuration and implementation are one release name.
- Strategies, ridge fitting, bootstrap, overfitting statistics, and the parsing of HTML, XML and calendars.
- `diagnostics._pair_fills` as a conservation claim: it overwrites earlier entries.
