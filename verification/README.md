# The order path of one brokerage account, in Dafny

This project models how dqengine turns the holdings its strategies want into orders at a broker, and proves
what that machinery is for: that no interleaving of passes, fills, lost answers, stale views and crashes buys
the same shares twice, sells what the owner kept, or keeps replacing an order nobody changed. Beside the order
path stand the self-contained algorithms it leans on: second bars, backfill, execution polling, the weight
rebalance, the expression compiler, socket framing and the incremental daily file.

Where a property does not hold of the code, the code is kept as it is: a lemma gives the run or the input that
breaks it, and another says exactly when it does hold.

## How it is built

| file | what it models |
|---|---|
| `common.dfy`, `ordered_dict.dfy` | optional values, sides, sequence facts; dictionaries that keep insertion order |
| `market_delta.dfy` | the arithmetic of one market order: step rounding, the zero crossing |
| `market_section.dfy` | the chain of gates in front of it, and the owner's kept shares |
| `journal.dfy` | the write-ahead ledger, its state moves and the gates read from it |
| `no_double_buy.dfy`, `double_buy_runs.dfy`, `double_buy_witnesses.dfy` | a protocol machine of passes, venue, ledger, poll and sleeve; its invariant; whole runs; and the runs that break it when one assumption is dropped |
| `duplicate_gate.dfy` | any number of concurrent passes in front of the ledger |
| `book.dfy`, `book_runs.dfy`, `fast_path.dfy` | the in-memory account, its conservation, how long a submit settles, and who may transmit on the book's word |
| `level_tokens.dfy` | client order ids that carry a price level |
| `resting_orders.dfy`, `resting_rules.dfy`, `resting_convergence.dfy` | exits and entries: release, replace, place; the budget and the gateway switch; convergence |
| `second_bars.dfy` | trades to second bars, in batch and streaming |
| `history.dfy` | coverage intervals and the resumable backfill |
| `executions.dfy` | polling the execution ledger |
| `rebalance.dfy` | the weight-vector rebalance |
| `expressions.dfy` | the expression compiler |
| `framing.dfy` | length-prefixed frames |
| `daily_file.dfy` | the incremental daily file |

Objects the program updates in place are classes (`Journal.OrderJournal`, `Book.LiveBook`,
`RestingOrders.Sweep`, `SecondBars.SecondBucketConsolidator`, `History.HistoryCache`,
`Executions.ExecutionLedger`, `Rebalance.Portfolio`, `Framing.Socket`, `DailyFile.DailyZip`). Each method is
proved equal to a function on the object's state, and the theorems are about those functions. Concurrency,
venues and crashes are events of a state machine, and a run is any sequence of them.

Conventions. Quantities are whole numbers of one smallest unit, so the 1e-9 tolerances are exact comparisons;
prices and levels are `real`. Times are whole seconds in the ledger and milliseconds in the book and the bars.
Venue answers, clocks, random id parts and market data are parameters. "In session", "complete day" and "today"
are given.

What the double-buy theorem rests on beyond the code is `NoDoubleBuy.Assumed`, clause by clause:

- the gates a pass uses describe the ledger: they were read under the lock, or before it with nothing written since
  but fold marks; the read did not fail (a failed one is swallowed and shows an empty ledger), and the truth mode
  is `enforce` (in `observe` no unfolded fill freezes, in `off` no gate closes), unless no gate was closed anyway;
- a fold lift decided before the lock marks nothing that was filled since;
- the position read shows every fill the sleeve has folded;
- the listing shows no order whose fill the position read already shows, and none the venue has killed;
- the venue keeps client order ids;
- an acknowledgement is not already final;
- recovery gives a row up only when its order was never placed and is not on its way.

Each of them is needed: `double_buy_witnesses.dfy` has, for each, a complete run that meets all the others and
buys twice, or sells what the target still wants. Built into the machine itself are fills of whole orders, working
writes of ledger rows, no manual trades, and one pass at a time under the connection's locks. A gather's fold lift
outside the lock, and an order that reaches the venue after its pass has given it up, are events of the machine.

## Model

| member | source | states |
|---|---|---|
| `MarketDelta.RoundStep` | dqengine/live/executor.py:1184-1187 | rounding loses less than one step, never grows the quantity or changes its side, and gives zero exactly below one step |
| `MarketDelta.RoundStepIsFloor` | dqengine/live/executor.py:1184-1187 | the rounding is the floor of the whole steps of the magnitude, sign put back |
| `MarketDelta.RoundStepIsLargest` | dqengine/live/executor.py:1184-1187 | no larger whole number of steps fits in the quantity |
| `MarketDelta.OrderIsSound` | dqengine/live/executor.py:2489-2605 | every order moves towards the target without overshoot, crosses zero only from less than one step, and is flagged as opening a short exactly when it sells into one |
| `MarketDelta.TwoOrdersSettle` | dqengine/live/executor.py:2489-2605 | from any holding and for every step, zero and negative included, at most two filled orders bring the gap below one tradable unit, and the section is then silent |
| `MarketDelta.CutLeavesLessThanAStep` | dqengine/live/executor.py:2561-2605 | an order that does not reach the target was cut at zero and leaves less than one unit |
| `MarketSection.KeptNow` | dqengine/live/executor.py:240-259 | the kept shares still in the account are on the kept side and never more than the kept amount |
| `MarketSection.CarvedCoversBooks` | dqengine/live/executor.py:240-299 | the carved view still covers the deployments' books while the account does, and the short flag is raised exactly when it cannot cover both |
| `MarketSection.SentOrderIsSound` | dqengine/live/executor.py:2421-2617 | what passes all gates is the sound order, and none of the missing-evidence gates was open |
| `MarketSection.SendExactly` | dqengine/live/executor.py:2421-2618 | an order goes out if and only if nothing is cooling down, unacknowledged, unfolded or hidden, the gap is a step and not explained by fills on their way, there is a price, both caps hold, no kept share or waiting short is in the way, and it was refused fewer than three times or does not grow the holding |
| `MarketSection.HeldForTheFirstReason` | dqengine/live/executor.py:2421-2618 | otherwise the symbol is held back for the first of thirteen reasons, in the section's order, each stated on its own |
| `MarketSection.SizeGatesHoldReductionsExactly` | dqengine/live/executor.py:2496-2618 | exactly when the fold rail, the position cap and the order cap hold the symbol back, and when that order would have shrunk the holding: as soon as the target lies towards flat; a repeated refusal never holds such an order back |
| `MarketSection.PositionCapStrandsReversals` | dqengine/live/executor.py:2521-2537 | against its own comment, the position cap blocks a reduction: with nothing in flight exactly when the target is larger and on the other side, where the sell to flat that comes first is held back |
| `MarketSection.PositionCapStrandsALong` | dqengine/live/executor.py:2521-2537 | 100 held, -150 wanted, a cap of 120: the sell of 100 to flat is refused |
| `MarketSection.OrderCapStrandsALong` | dqengine/live/executor.py:2538-2548 | 100 held, nothing wanted, an order cap of 50: the sell to flat is refused |
| `MarketSection.OrderCapJudgesTheGap` | dqengine/live/executor.py:2538-2585 | the order cap is compared with the whole gap, before the zero crossing cuts the order |
| `MarketSection.KeptLongsStay` | dqengine/live/executor.py:2561-2578 | a market sell leaves the full kept amount under every pattern of fills when no buy is in flight |
| `MarketSection.KeptShortsStay` | dqengine/live/executor.py:2561-2578 | the mirror for kept shorts and market buys |
| `MarketSection.KeptLongsStayInTheEnd` | dqengine/live/executor.py:2561-2578 | with orders of both sides in flight the kept amount is there once all have filled |
| `MarketSection.SellsDownToTheKept` | dqengine/live/executor.py:2561-2578 | the bound is reached: 15 shares, 10 kept, nothing wanted, and exactly 5 are sold |
| `MarketSection.KeptLongsStayExactly` | dqengine/live/executor.py:2561-2578 | with orders of both sides in flight, every pattern of fills leaves the kept amount if and only if the carved position covers the sells in flight and the new one |
| `MarketSection.KeptShortsStayExactly` | dqengine/live/executor.py:2561-2578 | the mirror for kept shorts and the buys |
| `MarketSection.PendingBuyCanDipIntoKept` | dqengine/live/executor.py:2561-2578 | the smallest account that fails it dips to 5 of 10 kept shares |
| `Journal.OpenRowsExact` | dqengine/live/journal.py:122-169 | the open rows of a symbol are exactly its outstanding rows with something left to fill |
| `Journal.UnfoldedExact` | dqengine/live/journal.py:150-162 | the unfolded freeze holds exactly while a filled row of today with a quantity is not marked folded; offsetting fills never cancel |
| `Journal.FoldLiftClears` | dqengine/live/journal.py:111-119 | the fold lift clears a symbol exactly when no filled row carries another note |
| `Journal.GateTermsExactly` | dqengine/live/journal.py:122-169 | what one row adds to each gate of a symbol |
| `Journal.UnresolvedExact` | dqengine/live/journal.py:122-169 | a symbol is unresolved exactly while a row of today has been `sending` for more than ten seconds |
| `Journal.AckExactly` | dqengine/live/journal.py:56-70 | the status alone decides the state of an acknowledged row, and a blank broker id keeps the old one |
| `Journal.FoldExactly` | dqengine/live/journal.py:80-95 | an execution adds its size to the row its client id names, or, where no row has that, the first its broker id names, and to no other |
| `Journal.CancelExactly` | dqengine/live/journal.py:98-108 | a cancel takes the row so named out of the outstanding ones, and touches no other |
| `Journal.ResolveExactly` | dqengine/live/journal.py:172-211 | exactly when recovery opens a row, under which broker id, and when it abandons one, after ten and sixty seconds |
| `Journal.OrderJournal.RecordSending` | dqengine/live/journal.py:25-45 | inserts the `sending` row if and only if its client id is new, and touches no other row |
| `Journal.OrderJournal.MarkSubmitted` | dqengine/live/journal.py:56-70 | an acknowledgement moves its row to the acknowledged state from any state, final ones included |
| `Journal.OrderJournal.MarkRejected` | dqengine/live/journal.py:73-77 | a refusal rejects its row from any state |
| `Journal.OrderJournal.FoldExecution` | dqengine/live/journal.py:80-95 | one execution lands on the row of its client id, or of its broker id, and on no other |
| `Journal.OrderJournal.MarkCanceled` | dqengine/live/journal.py:98-108 | only an outstanding row is canceled |
| `Journal.OrderJournal.MarkFolded` | dqengine/live/journal.py:111-119 | exactly the filled rows of the symbol without a note are marked |
| `Journal.OrderJournal.ResolveStale` | dqengine/live/journal.py:172-211 | exactly the overdue `sending` rows move: to `open` when listed, to `abandoned` when provably absent |
| `Journal.OrderJournal.ReadGates` | dqengine/live/journal.py:122-169 | one scan gives every gate of every symbol as the sum over the rows it stands for |
| `NoDoubleBuy.EqualSidesMeanAllFolded` | dqengine/live/executor.py:1490-1524 | sleeve and ledger totals equal per side mean that every stored fill is folded |
| `NoDoubleBuy.UnfrozenMeansFolded` | dqengine/live/executor.py:1490-1524 | a symbol the gates leave unfrozen has no stored fill the sleeve lacks |
| `NoDoubleBuy.ShownExactly` | dqengine/live/executor.py:1501-1524 | which gates a pass is shown in each truth mode, and after a failed read |
| `NoDoubleBuy.IntentCidExactly` | dqengine/live/executor.py:2619-2631 | the id of a market order carries its symbol, side, size and epoch, and two intents share one exactly when signed size and epoch agree |
| `NoDoubleBuy.GatherKeeps` | dqengine/live/executor.py:3515-3520 | what a gather reads before the lock, and the lift it decides on there, keep the invariant |
| `NoDoubleBuy.LateLiftKeeps` | dqengine/live/executor.py:1507-1516 | that lift may be written at any later moment, over another pass's head, as long as no row was filled since it was decided |
| `NoDoubleBuy.DecisionSeesCommitted` | dqengine/live/executor.py:2438-2495 | a decision that passes the gates was made on the true holding plus the truly live orders, each counted once by the position read or by the listing |
| `NoDoubleBuy.PlacingKeeps` | dqengine/live/executor.py:2618-2657 | an accepted submit keeps the invariant |
| `NoDoubleBuy.PlacingAddsUp` | dqengine/live/executor.py:2618-2657 | it adds exactly its own quantity to the commitments |
| `NoDoubleBuy.ArrivalKeeps` | dqengine/live/executor.py:1958-2007 | an order that reaches the venue after its pass has given it up keeps the invariant and adds its quantity |
| `NoDoubleBuy.VenueMovesKeep` | dqengine/live/executor.py:2092-2093 | fills and kills at any moment keep the invariant |
| `NoDoubleBuy.StepKeepsInvariant` | dqengine/live/executor.py:3572-3641 | every step of passes, gathers, late fold lifts, venue, poll, sleeve, recovery and crashes keeps the invariant |
| `DoubleBuyRuns.InvariantOverRuns` | dqengine/live/executor.py:3572-3641 | the invariant holds after every run |
| `DoubleBuyRuns.EverySubmitSeesTheTruth` | dqengine/live/executor.py:2438-2657 | at every market submit of every run the row is already written, the id is new to the venue, and the effective holding is the true commitments |
| `DoubleBuyRuns.OnlySubmitsAndKillsMove` | dqengine/live/executor.py:2438-2657 | nothing moves the commitments but submits, kills and a late arrival |
| `DoubleBuyRuns.NoRunDoubleBuys` | dqengine/live/executor.py:2438-2657 | for a standing target, holding and commitments stay between the start and the target in every run |
| `DoubleBuyWitnesses.ALegalRunReachesTheTarget` | dqengine/live/executor.py:2438-2657 | a complete run that meets every assumption buys the target and holds it |
| `DoubleBuyWitnesses.StaleGatesDoubleBuy` | dqengine/live/executor.py:3510-3641 | gates gathered before the lock: a complete run that buys twice |
| `DoubleBuyWitnesses.TerminalAckDoubleBuys` | dqengine/live/journal.py:56-70 | an acknowledgement that says `filled`: a complete run that buys twice |
| `DoubleBuyWitnesses.UnsoundAbandonDoubleBuys` | dqengine/live/journal.py:172-211 | a row given up although its order filled: a complete run that buys twice |
| `DoubleBuyWitnesses.LaggingPositionDoubleBuys` | dqengine/live/executor.py:2092-2093 | a position read that lags a folded fill: a complete run that buys twice |
| `DoubleBuyWitnesses.LateLiftDoubleBuys` | dqengine/live/executor.py:1507-1516 | a fold lift decided before the lock and written after another pass's poll: a complete run that buys twice |
| `DoubleBuyWitnesses.FailedGatesDoubleBuy` | dqengine/live/executor.py:1517-1519 | a gates read that fails is swallowed and opens every gate: a complete run that buys twice |
| `DoubleBuyWitnesses.OffModeDoubleBuys` | dqengine/live/executor.py:1519-1521 | truth mode `off` lets no gate close: a complete run that buys twice |
| `DoubleBuyWitnesses.ObserveModeDoubleBuys` | dqengine/live/executor.py:1522-1523 | truth mode `observe` does not freeze on a stored fill the sleeve lacks: a complete run that buys twice |
| `DoubleBuyWitnesses.NoClientIdsDoubleBuys` | dqengine/live/executor.py:2467-2478 | without client ids an open row the listing does not show holds nothing back: a complete run that buys twice |
| `DoubleBuyWitnesses.LaggingListingSellsTheTarget` | dqengine/live/executor.py:2092-2093 | a listing that still shows an order the position already includes counts it twice: a complete run that sells the whole target |
| `DoubleBuyWitnesses.KilledListingSellsShort` | dqengine/live/executor.py:2092-2093 | a listing that still shows a killed order: a complete run in which a flat account sells short |
| `DuplicateGate.AtMostOnePerClientId` | dqengine/live/executor.py:1527-1546 | over every interleaving a client id goes out at most once, plus once for each failed ledger write of it, and never without its row otherwise |
| `DuplicateGate.SameIntentGoesOutOnce` | dqengine/live/journal.py:25-45 | passes with one epoch and one order send it once between them |
| `DuplicateGate.FailedWriteSendsTwice` | dqengine/live/executor.py:1544-1546 | a failed write is let through, and then two passes send the same intent |
| `OrderedDict.PutGets` | dqengine/live/book.py:73-136 | what a key maps to after a write |
| `OrderedDict.DelGets` | dqengine/live/book.py:73-136 | what a key maps to after a removal |
| `OrderedDict.SumPut` | dqengine/live/book.py:73-136 | a write changes a sum by exactly the difference of the two values |
| `Book.SubmitMoves` | dqengine/live/book.py:73-80 | a submit moves the exposure by its signed quantity, less what it overwrites |
| `Book.AckMoves` | dqengine/live/book.py:82-102 | what an acknowledgement, live or dead, does to the exposure |
| `Book.CancelMoves` | dqengine/live/book.py:108-110 | a cancel takes out exactly its order |
| `Book.LiveAckConserves` | dqengine/live/book.py:82-102 | a live acknowledgement of the order that was sent changes nothing |
| `Book.RestsExactly` | dqengine/live/book.py:82-102 | under which key an acknowledged order rests, and which statuses keep it from resting |
| `Book.FillKeyExactly` | dqengine/live/book.py:124-131 | which pending order a fill clears: by venue id, else the oldest under or with its client id |
| `Book.BatchMoves` | dqengine/live/book.py:112-136 | a batch of fills moves each position by its fills, or none when learned after an audit, and clears orders one by one |
| `Book.FillMoves` | dqengine/live/book.py:112-136 | a fill adds its quantity to the position and takes at most what was pending from its order |
| `Book.FillConservesExactly` | dqengine/live/book.py:112-136 | a fill leaves the exposure alone if and only if it has the order's side and no more than its remainder |
| `Book.WholeLifeOfAnOrder` | dqengine/live/book.py:73-136 | submitted, acknowledged, filled: the exposure moved once and nothing of the order is left |
| `Book.OvertakingFillCountsTwice` | dqengine/live/book.py:112-136 | a fill before its acknowledgement is counted as shares and again as the order |
| `Book.AuditTakesTheVenue` | dqengine/live/book.py:138-182 | a symbol that is not settling is exactly what was fetched |
| `Book.FetchedExactly` | dqengine/live/book.py:155-156 | what a fetch shows under an id: the last order with it, none without an id |
| `Book.MergedExactly` | dqengine/live/book.py:155-172 | after an audit exactly the fetched orders rest, and the book's own of settling symbols that no fetched order shows by key or client id |
| `Book.AuditKeepsSettlingPositions` | dqengine/live/book.py:138-182 | a settling symbol keeps the book's position |
| `Book.AuditLosesNoPendingOrder` | dqengine/live/book.py:138-182 | each of its pending orders survives under its key or under a fetched order with its client id |
| `BookRuns.SettlesExactly` | dqengine/live/book.py:138-205 | exactly how long a submit keeps its symbol settling over every run of book operations: five seconds whatever becomes of it, and after that while it is neither answered nor given up by an audit |
| `BookRuns.PositionIsOurOwn` | dqengine/live/book.py:138-182 | in those five seconds the symbol's position is the one at the submit plus the fills noted since, through every answer and every audit |
| `BookRuns.AuditMovesSettling` | dqengine/live/book.py:138-182 | what an audit does to a settling symbol's exposure: fetched orders in, the entries they stand for out, submits unanswered for two seconds out |
| `BookRuns.AuditGivesUpUnanswered` | dqengine/live/book.py:175-176 | under a fetch that shows nothing of the symbol exactly the submits unanswered for two seconds leave its exposure |
| `BookRuns.UnansweredHundredDropsOut` | dqengine/live/book.py:175-176 | an unanswered submit of 100 is gone from the book after such an audit |
| `Book.AskingIsConsistent` | dqengine/live/book.py:50-64 | asking for the licence freezes exactly when it finds an overdue order, and the answer is then no |
| `Book.FreezeNeedsAReason` | dqengine/live/book.py:66-69 | a freeze shuts the licence exactly when it gives a reason |
| `Book.LiveBook.FastPath` | dqengine/live/book.py:50-64 | the licence, and the freeze that asking for it can cause |
| `Book.LiveBook.NoteSubmit` | dqengine/live/book.py:73-80 | adds the in-flight entry and remembers the symbol as recent |
| `Book.LiveBook.NoteAck` | dqengine/live/book.py:82-102 | moves the in-flight entry to the open orders, or drops it when dead |
| `Book.LiveBook.NoteFills` | dqengine/live/book.py:112-136 | applies the fills in order |
| `Book.LiveBook.ApplyAudit` | dqengine/live/book.py:138-182 | merges the fetch into the book and lifts the freeze |
| `FastPath.PassesNeverOverlap` | dqengine/live/executor.py:57-138 | two passes that reconcile at once are one pass: always in a process, across processes under advisory locks |
| `FastPath.LocksAreHeldExactly` | dqengine/live/executor.py:57-138 | in every run, crashes included, each lock is taken exactly while a pass holds it: whatever ends a pass gives both back |
| `FastPath.AskExactly` | dqengine/live/executor.py:3305-3320 | before it waits, a fast pass without the licence ends, any other goes on, and an audit remembers who owns the connection |
| `FastPath.TakeSweepExactly` | dqengine/live/executor.py:79-138 | the sweep lock is got unless the database breaks or, with advisory locks, another pass has it |
| `FastPath.EnterExactly` | dqengine/live/executor.py:3572-3585 | behind both locks an audit reconciles, and a fast pass only if it still has the licence |
| `FastPath.LicenceExactly` | dqengine/live/book.py:50-69 | in every run the licence is open if and only if an audit within ninety seconds is the last thing that happened to it, no drift, recovered fill or overdue order since, and no order is unanswered for twenty |
| `FastPath.DriftShutsTheFastPath` | dqengine/live/executor.py:3558-3585 | a reconciling fast pass has an audit as the standing verdict on its book, even if a freeze for drift or a recovered fill came while it waited |
| `FastPath.AuditDecidesTheLicence` | dqengine/live/executor.py:3706-3767 | an audit opens the fast path unless its owner found drift or an order is overdue, and an earlier fill recovered after it shuts it again; shut, it stays shut over every run until the next audit of the process |
| `FastPath.OnlyAnAuditReopens` | dqengine/live/executor.py:437-446 | a frozen book stays shut through every run without an audit of its process, crashes included |
| `FastPath.WithoutAdvisoryLocksSweepsOverlap` | dqengine/live/executor.py:79-138 | without them two processes sweep one account at once |
| `LevelTokens.Encode36` | dqengine/live/executor.py:1287-1294 | the digit loop writes the base-36 numeral |
| `LevelTokens.Base36RoundTrip` | dqengine/live/executor.py:1287-1301 | numerals read back as their number and have no more digits than they need |
| `LevelTokens.QuantizedIsNearest` | dqengine/live/executor.py:1304-1313 | quantizing moves a level at most half a cent, once |
| `LevelTokens.RoundsExactly` | dqengine/live/executor.py:1304-1313 | to the nearest whole cent, of two to the even one |
| `LevelTokens.TokenExactly` | dqengine/live/executor.py:1334-1362 | a token is read exactly off an id that ends in a dash, the marker and its digits, one final newline apart |
| `LevelTokens.MintExactly` | dqengine/live/executor.py:1371-1415 | prefix, random part and token, refused exactly beyond forty letters |
| `LevelTokens.RuleTokenIs` | dqengine/live/executor.py:1222-1236 | a rule's token reads back as its checksum modulo 36 to the third |
| `LevelTokens.SharedIdentityExactly` | dqengine/live/executor.py:1239-1262 | which wants share an identity |
| `LevelTokens.EncodedLevel` | dqengine/live/executor.py:1316-1331 | a token is five digits of the cents, and is there exactly when they fit |
| `LevelTokens.EveryIdFits` | dqengine/live/executor.py:1239-1416 | every minted id has at most 40 characters, so the length guard never fires |
| `LevelTokens.IdRoundTrip` | dqengine/live/executor.py:1334-1416 | every minted id reads back as its quantized level, or both legs, and as unknown when no token was embedded, for any prefix |
| `LevelTokens.StopChangeIsExact` | dqengine/live/executor.py:2880-2911 | on a venue that echoes nothing a stop is found changed exactly when its cents or its quantity differ |
| `LevelTokens.StopLimitChangeIsExact` | dqengine/live/executor.py:2841-2879 | the same for either leg of a stop-limit |
| `LevelTokens.TrailChangeIsCoarse` | dqengine/live/executor.py:2804-2840 | a trailing stop is found changed exactly when it moved by more than five hundredths of a percent |
| `LevelTokens.TighterTrailGoesUnnoticed` | dqengine/live/executor.py:2804-2840 | so a trail tightened from 1.05 to 1 percent is never sent |
| `LevelTokens.LimitLevelNeedsAnEcho` | dqengine/live/executor.py:1371-1386 | a take-profit carries no token: on such a venue only its quantity can be seen to change |
| `LevelTokens.EchoedLimitChange` | dqengine/live/executor.py:2884-2911 | where the venue lists its price, a take-profit is found changed exactly beyond 0.004 or on quantity |
| `LevelTokens.EchoedStopChange` | dqengine/live/executor.py:2884-2911 | a stop by its stop price, by its limit price where none is listed |
| `LevelTokens.EchoedStopLimitChange` | dqengine/live/executor.py:2841-2883 | a stop-limit by either leg |
| `LevelTokens.HalfEchoedStopLimitChange` | dqengine/live/executor.py:2841-2883 | one leg listed: that one to the tolerance, the other by the id, to the cent |
| `LevelTokens.EchoedTrailChange` | dqengine/live/executor.py:2804-2840 | a trailing stop beyond five hundredths of a percent |
| `LevelTokens.UnknownIsUnchanged` | dqengine/live/executor.py:2804-2911 | a level neither listed nor remembered is not compared |
| `LevelTokens.UnchangedNeverChurns` | dqengine/live/executor.py:2804-2911 | an order placed for what is still wanted is never found changed, sub-cent levels included |
| `LevelTokens.RawComparisonWouldChurn` | dqengine/live/executor.py:1304-1313 | without quantizing both sides 380.0045 would be replaced on every pass |
| `RestingOrders.GatesHold` | dqengine/live/executor.py:2673-2772 | each accepted exit on its own covers no more than the side it closes, no accepted stop is on the side where it fires at once, and no accepted limit crosses the market beyond the tolerance |
| `RestingOrders.AcceptedExactly` | dqengine/live/executor.py:2673-3110 | a want, exit or entry, is accepted if and only if none of nine reasons applies, each stated on levels, prices, holdings and rails, and is otherwise left out for the first that does |
| `RestingOrders.ExitsOversellExactly` | dqengine/live/executor.py:2731-2775 | two stops on one side together close more than the account holds exactly when each fits alone and the two do not |
| `RestingOrders.WholeHoldingTwice` | dqengine/live/executor.py:2731-2775 | so a stop and a trailing stop over the whole holding are both accepted |
| `RestingOrders.AcceptedWithinBound` | dqengine/live/executor.py:2731-2775 | all accepted exits of one side together close at most the holding once for each of them |
| `RestingOrders.BoundIsReached` | dqengine/live/executor.py:2731-2775 | and any number of stops over the whole holding reach that bound |
| `RestingOrders.BracketRestsOneLeg` | dqengine/live/executor.py:2123-2141 | of two exits one deployment wants on one symbol no accepted one is a take-profit, so both legs of a bracket never rest together |
| `RestingOrders.DustExitGoesOutEmpty` | dqengine/live/executor.py:2689-2761 | an exit below one step is not dropped but sent with quantity zero |
| `RestingOrders.Sweep.Transmit` | dqengine/live/executor.py:1958-2007 | one mutation, its answer and what it does to the venue, the gateway switch and the pass |
| `RestingOrders.Sweep.Act` | dqengine/live/executor.py:1958-2007 | gateway switch, budget, dry run, wire, in that order |
| `RestingOrders.Sweep.Release` | dqengine/live/executor.py:2258-2350 | cancels exactly the stale orders of the snapshot |
| `RestingOrders.Sweep.MarketBatch` | dqengine/live/executor.py:1601-1722 | budget spent while deciding, orders sent afterwards until the gateway trips |
| `RestingOrders.Sweep.PlaceOne` | dqengine/live/executor.py:2673-2976 | leave, amend, cancel and resend, or submit |
| `RestingOrders.Sweep.Reconcile` | dqengine/live/executor.py:1835-3210 | the sections of one pass in the code's order |
| `RestingRules.PassStaysInBudget` | dqengine/live/executor.py:1883-1889 | no pass transmits more than `max_orders_per_sync` mutations over all sections, and none when paused, unconfirmed or dry |
| `RestingRules.SuppressionHolds` | dqengine/live/executor.py:2916-2963 | whatever the venue answers, a suppressed pass sends only cancels of orders nobody wants, and no pass touches an order that is not ours |
| `RestingRules.ReplyExactly` | dqengine/live/executor.py:1958-2007 | what an answer does to the pass: when it trips the gateway switch, when it ends the pass, and when the venue has moved |
| `RestingRules.ActExactly` | dqengine/live/executor.py:1958-2007 | exactly when a mutation is attempted, what it costs, and when it goes out |
| `RestingRules.DeferredExactly` | dqengine/live/executor.py:1601-1722 | as many market orders are decided as the budget has, none once the pass has stopped |
| `RestingRules.LaunchedExactly` | dqengine/live/executor.py:1601-1722 | and they go out in that order until the gateway trips or the pass ends |
| `RestingRules.OnCloseExactly` | dqengine/live/executor.py:1890-1957 | the tickets on close go out in turn while the budget lasts |
| `RestingRules.RefreshOutcomesExactly` | dqengine/live/executor.py:2951-2963 | over every answer to the cancel and to the resubmit: a moved order's want ends up without any order exactly when the cancel was carried out and its answer lost, or accepted with the budget used up or the resubmit not landing; with two exactly when the cancel was refused and the resubmit lands |
| `RestingRules.BothStay` | dqengine/live/executor.py:2258-2350 | two orders for one want both stay: no release touches either |
| `RestingRules.AmendSettlesExactlyWholeShares` | dqengine/live/executor.py:2935-2942 | an amended take-profit is in order afterwards exactly when its quantity is whole shares; a fractional one is replaced forever |
| `RestingConvergence.MatchingKind` | dqengine/live/executor.py:1239-1262 | an id that matches a want was minted for its kind and remembers its levels |
| `RestingConvergence.MintedIsInFamily` | dqengine/live/executor.py:2258-2350 | which releases look at an order: of every kind placed for an exit the one, of every kind placed for an entry the other, a trailing entry none |
| `RestingConvergence.PlaceOneSettles` | dqengine/live/executor.py:2673-2976 | placing one want settles it and leaves every other identity alone |
| `RestingConvergence.PlacedSettles` | dqengine/live/executor.py:2673-3202 | placing all wants settles all of them |
| `RestingConvergence.ReleasedIs` | dqengine/live/executor.py:2258-2350 | a release takes away exactly the stale orders |
| `RestingConvergence.OnePassConverges` | dqengine/live/executor.py:2116-3202 | one pass over a venue that does as told leaves every accepted want resting alone and in order, and nothing unwanted |
| `RestingConvergence.NextPassIsQuiet` | dqengine/live/executor.py:2258-3202 | from there the resting sections send nothing, whatever the venue would answer |
| `RestingConvergence.SecondPassSendsNothing` | dqengine/live/executor.py:2116-3202 | the two together: converge, then rest |
| `RestingConvergence.FirstExitGoesOut` | dqengine/live/executor.py:2673-2976 | the smallest instance: on an empty venue one accepted exit ends up resting as wanted |
| `RestingConvergence.SettledStopIsAtItsLevel` | dqengine/live/executor.py:2880-2911 | a stop left resting is at its level, to 0.004 where echoed and to the cent where not |
| `RestingConvergence.SettledStopLimitIsAtItsLevels` | dqengine/live/executor.py:2841-2879 | the same for both legs of a stop-limit |
| `RestingConvergence.SettledLimitIsAtItsLevel` | dqengine/live/executor.py:2884-2911 | a take-profit left resting is at its price where echoed |
| `RestingConvergence.SettledTrailIsAtItsLevel` | dqengine/live/executor.py:2804-2840 | a trailing stop left resting trails by its percent, to five hundredths of one |
| `RestingConvergence.GoodExactly` | dqengine/live/executor.py:2804-2911 | what converged means without the change test: the wanted quantity, and levels that agree to the tolerance, to the remembered cent, or are unknown |
| `SecondBars.AggregateTrades` | dqengine/live/secbars.py:86-110 | the batch loop builds the aggregate of its trades |
| `SecondBars.AggregatedIsPerSecond` | dqengine/live/secbars.py:86-110 | for every whole second b, a bar exactly when a trade counts in [b, b + 1000) ms, and then first, highest, lowest, last price and total size of those trades |
| `SecondBars.BarsStartOnSeconds` | dqengine/live/secbars.py:86-110 | and no bar starts anywhere else |
| `SecondBars.EligibleExactly` | dqengine/live/secbars.py:52-60 | a trade counts from half past nine until the close without an excluded code |
| `SecondBars.ExcludedExactly` | dqengine/live/secbars.py:32-56 | the seventeen codes |
| `SecondBars.SecondBucketConsolidator.AddTrade` | dqengine/live/secbars.py:125-146 | extends the symbol's bar or completes it and opens the next |
| `SecondBars.SecondBucketConsolidator.FlushBefore` | dqengine/live/secbars.py:148-158 | hands out the completed bars and those whose second is over, and keeps the others |
| `SecondBars.StreamingEqualsBatch` | dqengine/live/secbars.py:113-158 | streaming gives the batch bars in order if and only if no print comes late: of the same second as the symbol's print before it, with a flush past that second between the two; each that does makes one bar too many |
| `SecondBars.LateIsLatePrints` | dqengine/live/secbars.py:125-158 | the trades the stream finds late are exactly the prints that are late by the events alone |
| `SecondBars.SymbolHolds` | dqengine/live/secbars.py:113-158 | in every run a symbol's bar in progress is that of its last print, until the first flush past it |
| `SecondBars.LiveBarsAreBatchBars` | dqengine/live/secbars.py:113-158 | on one clock the fetched bars after the close are the batch bars |
| `SecondBars.NoVolumeLost` | dqengine/live/secbars.py:86-158 | late or not, ordered or not, every eligible size is in exactly one bar |
| `History.MergeIntervals` | dqengine/live/history.py:55-64 | the merge loop |
| `History.MergedIs` | dqengine/live/history.py:55-64 | exactly the union, sorted, disjoint and not adjacent |
| `History.CanonicalIsUnique` | dqengine/live/history.py:55-64 | two such lists of the same days are the same list |
| `History.MissingRanges` | dqengine/live/history.py:67-85 | the gap loop with its early exits |
| `History.MissingIs` | dqengine/live/history.py:67-85 | exactly the uncovered days of the range, as maximal gaps in order |
| `History.HistoryCache.EnsureHistory` | dqengine/live/history.py:168-220 | fetches the gaps in order, rows first and checkpoint last, wherever it dies |
| `History.BackfillCompletes` | dqengine/live/history.py:168-220 | afterwards nothing is missing, and the ledger gained exactly the fetched gaps |
| `History.ResumeFetchesTheRest` | dqengine/live/history.py:215-219 | after any interruption the next run fetches exactly the gaps not checkpointed |
| `History.InterruptedThenResumed` | dqengine/live/history.py:168-220 | and ends in the very cache an uninterrupted run would have left |
| `History.DiesBetweenRowsAndCheckpoint` | dqengine/live/history.py:200-219 | where a dying backfill leaves rows and checkpoints |
| `History.WrittenExactly` | dqengine/live/history.py:203-214 | what is reported written is the number of days with at least two rows |
| `History.HolesInTheCuratedSpanStay` | dqengine/live/history.py:187-188 | a session missing inside the curated span is never asked for |
| `Executions.ExecutionLedger.Cursor` | dqengine/live/executions.py:351-355 | the newest stored fill less the overlap |
| `Executions.ExecutionLedger.Store` | dqengine/live/executions.py:283-316 | stores each new id once, repeats within a batch included, and folds it |
| `Executions.JournalMovesLeaveFills` | dqengine/live/journal.py:25-211 | no other move of the ledger, rejection included, touches a filled quantity |
| `Executions.PollIsCompleteExactlyInTime` | dqengine/live/executions.py:351-370 | after every poll an execution is stored, once, if and only if it became visible before a fill more than 300 s newer was stored |
| `Executions.FillsAreConserved` | dqengine/live/journal.py:80-95 | in every run a row's filled quantity is the sum of the stored executions whose client id, or else broker id, named it in the ledger of that moment |
| `Executions.FoldedUnlessBroken` | dqengine/live/executions.py:300-313 | every newly stored execution is folded unless the fold raises for it |
| `Rebalance.Portfolio.Rebalance` | dqengine/runtime/allocation.py:107-164 | equity, targets, differences, stable sort, orders, flat reports |
| `Rebalance.OrdersAre` | dqengine/runtime/allocation.py:139-149 | one order for each symbol off its target, for exactly the difference, in order of size |
| `Rebalance.SellsComeFirst` | dqengine/runtime/allocation.py:148-149 | every sell is placed before every buy |
| `Rebalance.NeverOverdraws` | dqengine/runtime/allocation.py:107-164 | cash is never negative after any order of a long, fully priced rebalance whose sells fill |
| `Rebalance.EndsAtTarget` | dqengine/runtime/allocation.py:124-149 | a filled symbol ends at its truncated target |
| `Rebalance.TargetWithinAShare` | dqengine/runtime/allocation.py:124-129 | the target is the weight's part of the equity, less by under one share |
| `Rebalance.EndsAtItsPart` | dqengine/runtime/allocation.py:107-149 | a filled symbol ends at nothing for a weight under a thousandth either way, and otherwise at the most whole shares the weight's part of the equity pays for, long or short |
| `Rebalance.EquityIsConserved` | dqengine/runtime/allocation.py:122-149 | whatever is ordered and fills at the marks, the equity stays |
| `Rebalance.HoldingIsWorthItsMark` | dqengine/runtime/allocation.py:115-122 | a share adds its mark to the equity, an unpriced one nothing |
| `Rebalance.FillsPayTheMark` | dqengine/runtime/allocation.py:148-149 | a fill is paid at the mark |
| `Rebalance.FlatIs` | dqengine/runtime/allocation.py:151-163 | a symbol is reported flat exactly when its order filled and nothing is left |
| `Expressions.CompilePreservesExactly` | dqengine/codegen.py:108-166 | where every node below is kept, the emitted term of a node runs to what the evaluator (dqengine/runtime/core/exprs.py:39-121) makes of it if and only if: for `not`, its operand is ready; for `all` and `any`, every operand up to the deciding one is ready and that one is 0 or 1; for a division, it has two operands; every other node always |
| `Expressions.TestPreservesExactly` | dqengine/codegen.py:147-166 | the same where only a truth is asked for: `all` needs an operand, `any` that no unready operand hides a true one |
| `Expressions.UnkeptMayCancel` | dqengine/codegen.py:139-146 | the condition on the nodes below can neither be dropped nor turned round: the same lost node changes one comparison and cancels out in another |
| `Expressions.CompilePreserves` | dqengine/codegen.py:108-166 | expressions that ask `all`, `any` and `not` of conditions only keep their value and their truth in every environment |
| `Expressions.DisciplinedIsKept` | dqengine/runtime/core/exprs.py:65-76 | because every node of such an expression meets those conditions whatever is not ready |
| `Expressions.NotOfUnreadyDiffers` | dqengine/runtime/core/exprs.py:75-76 | `not` of an unready read is true for the evaluator, raises when compiled, and sends a branch the other way |
| `Expressions.AnyPastUnreadyDiffers` | dqengine/runtime/core/exprs.py:70-74 | `any` goes on past an unready read, compiled it does not |
| `Expressions.AllOfUnreadyDiffers` | dqengine/runtime/core/exprs.py:65-69 | `all` over an unready read is false, compiled it raises; as tests they agree |
| `Expressions.AnyOfNumberDiffers` | dqengine/codegen.py:150-152 | `any` over a number is true for the evaluator and the number when compiled |
| `Expressions.EmptyAllIsFalse` | dqengine/codegen.py:147-149 | an empty `all` holds for the evaluator and is printed as an empty tuple, which is false |
| `Expressions.LongDivisionDiffers` | dqengine/codegen.py:136-138 | a division of three operands has a value for the evaluator and is an error when compiled |
| `Expressions.CompilesIffParamsKnown` | dqengine/codegen.py:98-106 | a well-formed expression compiles exactly when its parameters are known |
| `Expressions.NestCases` | dqengine/codegen.py:159-165 | the loop from the last case outwards nests the cases first-match |
| `Expressions.ArithmeticOfTwo` | dqengine/codegen.py:132-135 | the three operations, evaluated and compiled |
| `Expressions.ComparisonOfTwo` | dqengine/runtime/core/exprs.py:82-99 | the six comparisons |
| `Expressions.ErrorsAreCaughtNowhere` | dqengine/codegen.py:708-714 | an error other than NotReady ends the term it occurs in |
| `Expressions.NotReadyIsCaughtByTests` | dqengine/codegen.py:708-714 | NotReady is caught by comparisons and branches only, as false |
| `Expressions.NoErrorButNotReady` | dqengine/codegen.py:108-166 | kept or not, with no empty `all` or `any` and divisions of two, a compiled expression ends in a value or in NotReady |
| `Expressions.CompiledConditionsNeverRaise` | dqengine/codegen.py:703-714 | a compiled condition never raises, whatever the comparisons in it are waiting for |
| `Framing.PackRoundTrip` | dqengine/runtime/engine_rpc.py:81-96 | four big-endian bytes give the length back |
| `Framing.PackIsBigEndian` | dqengine/runtime/engine_rpc.py:81-96 | the most significant byte comes first |
| `Framing.Socket.SendFrame` | dqengine/runtime/engine_rpc.py:78-88 | the whole frame goes out, or a proper prefix and the caller is told |
| `Framing.Socket.RecvExact` | dqengine/runtime/engine_rpc.py:105-113 | exactly the next n bytes however they arrive, or why not |
| `Framing.Socket.RecvFrame` | dqengine/runtime/engine_rpc.py:91-102 | what the stream holds at this position, independent of chunk sizes; an oversized length is refused after four bytes |
| `Framing.Socket.RecvAll` | dqengine/runtime/engine_rpc.py:91-113 | frame after frame, the documents of the stream and why it ended |
| `Framing.RoundTrip` | dqengine/runtime/engine_rpc.py:78-113 | every list of documents within the cap comes back in order |
| `Framing.CutStreamGivesWholeDocuments` | dqengine/runtime/engine_rpc.py:91-113 | a stream cut anywhere gives exactly the documents that arrived whole, then EOF |
| `Framing.OversizedIsRefusedUnread` | dqengine/runtime/engine_rpc.py:97-98 | the sender has no cap, and the receiver leaves the body unread |
| `Framing.NotADocumentIsRefused` | dqengine/runtime/engine_rpc.py:99-102 | a frame whose body is no document is an error, read to its end |
| `DailyFile.DerivedLines` | dqengine/live/bar_source.py:450-473 | the loop over complete days with its kept and recomputed rows |
| `DailyFile.DerivedInOrder` | dqengine/live/bar_source.py:450-473 | complete days only, strictly increasing, all after the given day |
| `DailyFile.IncrementalIsFullExactly` | dqengine/live/bar_source.py:463-472 | incremental and full agree if and only if no row carried over is stale |
| `DailyFile.CuratedRowsStay` | dqengine/live/bar_source.py:493-515 | an extension keeps the curated rows as its prefix and adds only later complete days |
| `DailyFile.PassesStayExact` | dqengine/live/bar_source.py:518-529 | over any number of passes the file is the full rebuild of the last tree, as long as late minutes reach only the window |
| `DailyFile.SamePassWritesNothing` | dqengine/live/bar_source.py:476-529 | a second pass over an unchanged tree has nothing to write, for every file and every version |
| `DailyFile.SameExtensionWritesNothing` | dqengine/live/bar_source.py:493-515 | nor has a second extension of the same curated rows |
| `DailyFile.DailyZip.WriteDailyLines` | dqengine/live/bar_source.py:476-490 | written only when the contents change, stamped either way |
| `DailyFile.DailyZip.DeriveDailyZip` | dqengine/live/bar_source.py:518-529 | one derivation pass, written exactly when the rows differ |
| `DailyFile.DailyZip.ExtendDailyZip` | dqengine/live/bar_source.py:493-515 | one extension pass, written exactly when the rows differ |

## Left out

- The double-buy machine follows one symbol on one day and market orders only: on-close tickets, resting orders and the quote-breach exit have no part in it, and a pass that reads the in-memory book instead of the venue is covered by the book and licence theorems, not by this one.
- NoRunDoubleBuys: stated for a target that stands through the run; when the target moves, EverySubmitSeesTheTruth still holds at every submit.
- The double-buy machine has at most one given-up order on its way to the venue at a time.
- UnfrozenMeansFolded: the sleeve's folded totals are taken over the ledger's rows, not over its own fill list.
- SameIntentGoesOutOnce: `market_cid` is taken to be injective in symbol, side, quantity and epoch; the eight hexadecimal digits the code keeps of its digest are not.
- Journal.OrderJournal.ResolveStale: does not return the report lines.
- OnePassConverges: the venue carries out every mutation and nothing fills during the pass; wants that are accepted have pairwise distinct prefixes and at most one resting order each to start with.
- Venues without client order ids: the identity by side, kind, quantity and level, and the release that cancels a wanted order whose level moved.
- Journal rows of resting orders: their random ids never collide here, so the ledger never holds one of them back.
- The on-close section is only counted against the budget; how it sizes its tickets is not modelled.
- The market batch is one sequence; its thread pool, stagger and two waves are not modelled.
- NeverOverdraws: fills are at the marked prices, whole or not at all.
- PollIsCompleteExactlyInTime: executions keep their id and values, and recovery of earlier days' fills is another path into the ledger.
- PassesNeverOverlap: the advisory lock lasts as long as its pass; a database session that drops while the process lives is not modelled.
- CompilePreservesExactly: reads of indicators and positions are given values or not ready; how they are computed, a missing `else` or default, the operand trace and the emission of whole programs are not modelled.
- RoundTrip: bodies are bytes and whether they parse as an object is given; the JSON text itself is not modelled.
- Float rounding, time zones, daylight saving, market calendars and early closes.
- Broker adapters, HTTP and websockets, retries and pacing, SQL mechanics, reports and log text.
- Attribution of an execution to a deployment, allocation of shared fills, and the self-healing of kept holdings.
