# Verification of the replay, backtest and log cores

This project models four parts of a trading platform and proves what they promise.

**Order replay.** `ReplayTradingOrders` folds a stream of orders over a long and a short book. An exit
consumes the newest entries first, in parts, with a tolerance of 1e-9; what it cannot match becomes a
violation, an exit without any entry an orphan. Quantities are exact reals. Modules `Orders`, `Replay`,
`ReplayConservation`, `ReplayUnitLots`, `ReplayLotMachine`, `ReplayFates`, `ReplaySides`, `OrderTexts`,
`ReplayNet`, `ReplayChains`.

**Backtest engines.** `run_second_bar_replay` holds at most one position, moves its stop, re-enters
through windows that an exit or a breakout opens, takes external breakout events, and keeps a ledger and
a balance. `run_backtest_enhanced` adds tiered protection and a drawdown breaker. Both are modelled in
the mode in which a breakout opens a re-entry window, with ATR stops and wick anchors. Each engine is a
class that updates its variables in place (`SecondReplayEngine`, `EnhancedEngine`), proved to compute a
step function on values (`SecondReplay`, `EnhancedReplay`); the whole-run theorems are about that
function, for every feed of bars and every configuration.
Every second of a run is decided exactly: `EngineExits` and `EngineOpenings` say, from the feed, the
parameters and the seconds since the entry, what the next state is, `EngineBars` what lies between bars and
at both ends; `EnhancedDecisions` does so for the minute engine. They speak in the terms of `Rulebook`,
which writes the trading rules out side by side for longs and shorts.
Second engine further: `EngineLedger`, `Attribution`, `Recovery`, `EngineFloor`, `EngineEntries`,
`FinalMarks`, `EngineProvenance`, `EngineMatching`, `EngineLimits`, `EngineStops`, `IntrabarAtr`,
`IdleUpdate`, `ExternalEvents`. Minute engine further: `EnhancedBooks`, `EnhancedFloor`, `EnhancedStops`,
`Breakers`, `Tiers`. Both: `Steps` (which seconds a run visits, in order), `FeedView` (what they see, from
the feed alone), `StopHistory` (a trailing stop in closed form), `FloorArithmetic` (what one trade can
cost). A second at a bar boundary belongs to both bars, as in the program. A missing number is `None` and
fails every comparison. Some fields are history that the program does not keep: the state's `locks` and
`held`; a ledger row's side, bar, second or minute, and ATR; a breaker row's bar; a position's
`initialStop` and `entryAtr`.

**Tick aggregation.** Ticks are read file by file and chunk by chunk; the last bucket of a chunk is
carried over. Modules `TickGroups`, `TickStream`, `SecondBars`, `GapFill`, `TickEvents`.

**Logs.** A ring buffer, the stores around it with cursor paging, recovery of the tail of rotated files
after a restart, and the printer and parser of the event stream. Modules `RingBuffers`, `Pagination`,
`LogStore`, `LogQueries`, `Lines`, `Persistence`, `Restart`, `Sse`, `SseExact`, `SseFields`.

## What does not hold without a condition

- Paging is complete if and only if (creation time, ID) strictly increases in append order
  (`Pagination.WalkExact`). Generated IDs are compared as text, so at one instant `system-log-10` hides
  `system-log-9` (`Pagination.TenHidesNine`); neighbours keep their order exactly when their numerals are
  equally long (`Pagination.GeneratedNeighbours`).
- The next generated ID is fresh unless the counter stands at the largest 64-bit integer and the wrapped
  ID is already there (`Restart.NextIDIsFresh`), as in `Restart.WrappedIDCollides`.
- The gap-filled second bars exist if and only if some tick is in range and the start is a whole second
  (`GapFill.SecondBarsExact`).
- A pair of ledger rows is credited with what its trade booked if and only if the guards of the two
  formulas agree: the attribution asks for a positive entry price, the engine for a positive notional
  (`Attribution.CreditExact`). They agree in every run with sound parameters, a balance that does not
  start negative and a feed whose fills have positive prices and moderate ATRs
  (`Recovery.CalmFeedRecovers`); with a negative size multiplier they do not
  (`Recovery.NegativeSizeIsMisread`).
- A message survives printing and parsing if and only if its type and payload are trimmed and free of
  newlines and the payload is not empty (`SseExact.SurvivesExactly`).
- The trailing update before the exit check is idle after the first second of a bar, in every run with
  the shared parameters and closes within their ranges, if and only if the closed ATR is positive
  (`IdleUpdate.IdleExactly`). For any parameters with a positive activation, a trail that is not negative
  and no overrides, it moves a stop there only if the closed ATR is zero and the bar had been at rest
  (`IdleUpdate.MovesOnlyFromRest`).
- The position with tiered protection leaves no later than the one without if and only if every ATR of
  the minutes held, except the last one, is positive: for all parameters, minutes and positions
  (`Tiers.NoLaterExactly`). Otherwise there is a holding that the plain rule has left and the tiered one
  has not (`Tiers.PlainLeavesFirst`), also in a run of the replay itself (`Tiers.RunLeavesFirst`).
- A run of the second engine keeps the geometric floor unless its last exit is a final mark
  (`FinalMarks.ReplayFloor`), which may lie beyond the stop and below the floor
  (`FinalMarks.MarkBelowFloor`). In the minute engine the same condition suffices
  (`EnhancedFloor.ReplayFloor`).

## Model

| member | source | states |
|---|---|---|
| Orders.NormalizingKeepsIntent | internal/domain/order_flags.go:5-43 | writing the flags into fields and metadata is idempotent, makes both say the effective flags, and never changes the classified intent |
| Orders.OrderRecord.NormalizeExecutionFlags | internal/domain/order_flags.go:13-32 | the in-place update makes the metadata map exist and leaves exactly the order with both flags written through |
| Replay.ReplayTradingOrders | internal/domain/trading_replay.go:112-187 | the loop over two mutable stacks computes the replay whose whole-run properties are proved below |
| Replay.ReplayOne | internal/domain/trading_replay.go:119-184 | one order changes result and both stacks as the step that the theorems below are about |
| Replay.ConsumeTradingReplayExit | internal/domain/trading_replay.go:216-259 | popping and decrementing in place yields the chain, book and mismatch of a last-in first-out close |
| Replay.ConsumeLoop | internal/domain/trading_replay.go:223-248 | the consuming loop computes the last-in first-out consumption of the book |
| Replay.ChronologicalReplayEntries | internal/domain/trading_replay.go:263-269 | consumed entries come out in reverse, that is in arrival order |
| Replay.TradingReplayChain | internal/domain/trading_replay.go:271-286 | the chain lists IDs and intents of all entries in order, and its display pairs the first entry's label with the exit's |
| ReplayConservation.QuantityMismatchExact | internal/domain/trading_replay.go:216-259 | a positive exit is a mismatch if and only if it exceeds the sum of entries above tolerance by more than the tolerance; then the excess is reported and the book is empty; an exit of no quantity pops one entry |
| ReplayConservation.RestExact | internal/domain/trading_replay.go:223-258 | the unmatched rest is within tolerance, or it is exactly the excess over what was closable |
| ReplayConservation.CloseConserves | internal/domain/trading_replay.go:216-259 | one close conserves quantity: before equals closed plus left plus dropped dust, dust at most the tolerance per popped entry |
| ReplayConservation.QuantityConserved | internal/domain/trading_replay.go:112-187 | over a whole run, opened quantity equals allocated plus open plus dust, dust at most tolerance times entries popped, and every open entry keeps 0 <= remaining <= quantity |
| ReplayUnitLots.ConsumePopsLots | internal/domain/trading_replay.go:223-248 | on a book of whole lots, consuming n lots takes exactly n unit lots from the top of the lot stack |
| ReplayUnitLots.CloseAgainstPopsLots | internal/domain/trading_replay.go:216-269 | a close of n lots leaves the lot stack without its last n, names the owners of the popped lots in arrival order, and mismatches if and only if there are fewer than n |
| ReplayUnitLots.OwnersOfExpand | internal/domain/trading_replay.go:271-286 | the owners of a book's lots, without repetition, are its entries in order |
| ReplayLotMachine.ReplayRefinesLots | internal/domain/trading_replay.go:112-187 | every run of lot orders with fresh IDs ends in exactly the books and chains of a machine that pushes and pops unit lots |
| ReplayLotMachine.OpenEntriesWereBrought | internal/domain/trading_replay.go:146-150 | every open entry was brought by an order of the stream |
| ReplayFates.EveryOrderHasOneFate | internal/domain/trading_replay.go:119-184 | ignored, chained and orphaned orders are listed in stream order and nothing else; every order is ignored, opened, chained, orphaned or not understood, and only one of them |
| ReplayFates.ViolationsAreDeserved | internal/domain/trading_replay.go:119-184 | the violations are, in order, those each order deserves by the rules |
| ReplayFates.ViolationCount | internal/domain/trading_replay.go:119-184 | their number is signal-kind breaches plus quantity mismatches plus unknowns plus two per orphan plus one per orphan that faces an open opposite book |
| ReplayFates.ExitIsReduceOnly | internal/domain/trading_constraints.go:55-67 | an exit intent without a matching position always breaks the reduce-only rule |
| ReplaySides.SidesDoNotInterfere | internal/domain/trading_replay.go:146-176 | book, chains, ignored orders, orphans and violations of a side, reversals apart, are those of replaying only that side's orders |
| ReplaySides.OffSideStep | internal/domain/trading_replay.go:146-176 | an order of the other side changes nothing that this side sees |
| Text.CaseIsMapped | internal/domain/order_intent.go:26-26 | mapping the case leaves no letter of the other case and loses nothing but the case |
| OrderTexts.IntentIsSideAndFlags | internal/domain/order_intent.go:25-42 | from the side text and the flags as written: buying opens longs and closes shorts, selling opens shorts and closes longs, and a flag, as field or metadata, makes the order an exit |
| OrderTexts.FateByWords | internal/domain/trading_replay.go:119-184 | every order's fate, reason for being ignored and breach of its label, from its words and the book of the side it names |
| OrderTexts.OrphanByWords | internal/domain/trading_replay.go:151-176 | an exit whose side has nothing open adds the two violations of an orphan, and a reversal if and only if the other side is open |
| ReplayNet.BooksMove | internal/domain/trading_replay.go:146-176 | an executed order without a flag appends one entry with its whole quantity to the book of its side, one with a flag never enlarges a book, and nothing else changes one |
| ReplayNet.NetPosition | internal/domain/trading_replay.go:112-187 | the net position law: after any stream, open longs less open shorts are the signed sum of what executed orders moved, up for BUY and down for SELL, an exit moving at most what the other book holds, up to the tolerance per order |
| ReplayChains.ChainsMatch | internal/domain/trading_replay.go:216-286 | in every replay the books hold entries of their own side only, and every chain pairs one exit with entries of the side it closes, under the two labels of its kind |
| RingBuffers.RingBuffer.constructor | internal/logging/store.go:165-173 | a new buffer is empty and holds at least one entry |
| RingBuffers.RingBuffer.Append | internal/logging/store.go:175-183 | the contents become the last `capacity` of the contents and the new item |
| RingBuffers.RingBuffer.Snapshot | internal/logging/store.go:185-198 | the loop over wrapped indices returns the contents, oldest first |
| RingBuffers.RingBuffer.Reset | internal/logging/store.go:200-210 | the buffer is empty again |
| RingBuffers.ViewAppend | internal/logging/store.go:175-198 | overwriting the head slot and advancing it appends to the view and drops the oldest item of a full one |
| LogStore.SystemLogStore.Add | internal/logging/store.go:359-372 | the stored entry is normalised, gets the next ID or raises the counter to its own, and is appended |
| LogStore.SystemLogStore.BumpAtomicSequence | internal/logging/store.go:730-748 | the counter becomes the larger of itself and the positive number in the ID, if there is one |
| LogStore.SystemLogStore.Passes | internal/logging/store.go:381-396 | the chain of tests is the filter of the query: beyond the cursor, and of the level, component and time range asked for |
| LogStore.SystemLogStore.Query | internal/logging/store.go:374-408 | the page is the newest `limit` matching entries beyond the cursor, with a cursor at its last one when more remain; it shows only entries not before a given start, not after a given end and of the level and component asked for, and all of them when there is no next cursor |
| LogStore.MatchesWanted | internal/logging/store.go:381-396 | the filter keeps exactly what is wanted in the words of the query: within the closed range, a level that is asked for (none and "all" ask for every one, "warn" for "warning"), a component of that name |
| LogQueries.FoundAgain | internal/logging/store.go:359-408 | in a run whose instants increase, following the cursors of a query to the end finds a recorded entry still in the ring if and only if its own time, level and component, as recorded, are those asked for |
| LogQueries.RangesSplit | internal/logging/store.go:391-396 | the ranges up to an instant and from the next one split what the unbounded query matches |
| LogQueries.LevelIsFound | internal/logging/store.go:513-536 | a stored level answers to every spelling of the level it was recorded with, "warn" and "warning" being one and none being "info" |
| Pagination.WalkFrom | internal/logging/store.go:374-408 | following cursors from anywhere ends and visits exactly the remaining matches, newest first, for any filter and limit |
| Pagination.WalkExact | internal/logging/store.go:538-580 | from the empty cursor the walk visits every match exactly once for all filters and limits if and only if (time, ID) strictly increases |
| Pagination.NextCursorExact | internal/logging/store.go:397-407 | there is a next cursor if and only if matches remain after the page, and it leaves exactly those |
| Pagination.CursorAdvances | internal/logging/store.go:567-580 | a cursor at any remaining entry leaves strictly fewer, whatever the order of the keys, so that every walk ends |
| Pagination.OutOfOrderIsSkipped | internal/logging/store.go:567-580 | of a buffer of two entries out of key order, read one entry per page, only the newer one is shown |
| Pagination.GeneratedNeighbours | internal/logging/store.go:362-363 | neighbouring generated IDs at one instant are in cursor order if and only if their numerals have the same length |
| Pagination.TenHidesNine | internal/logging/store.go:567-580 | entry 10 hides entry 9 of the same instant |
| Persistence.ReadTailLines | internal/logging/persistence.go:192-239 | the lines of the window's payload, trimmed, blank ones dropped, at most `maxLines` from the end |
| Persistence.TailLinesExact | internal/logging/persistence.go:206-239 | these are always some last lines of the file, and all that are wanted if and only if the window holds enough lines or all of them |
| Persistence.ReverseStrings | internal/logging/persistence.go:241-245 | the in-place swap reverses the array |
| Persistence.PushLines | internal/logging/persistence.go:161-163 | pushing a file's lines newest first puts them before what is already there once reversed |
| Persistence.LoadPersistedTail | internal/logging/persistence.go:144-165 | the nested loops and the final reversal collect each file's tail until the limit |
| Persistence.LoadedIsLast | internal/logging/persistence.go:155-165 | if every file that is read fits its window or fills the rest from it, the result is the last `limit` lines of all files together |
| Persistence.SmallFilesReach | internal/logging/persistence.go:206-211 | files no larger than the window always meet that condition |
| Restart.BootstrapFromDisk | internal/logging/persistence.go:109-142 | every line that decodes is added to the store in order, the others are counted |
| Restart.RestartRecovers | internal/logging/persistence.go:109-178 | if the files hold the append history within the windows, an empty buffer gets back the contents it had: the last `capacity` entries in order |
| Restart.NextIDIsFresh | internal/logging/store.go:359-372 | after recovery the next generated ID differs from every restored one if and only if the counter is not at its end or the wrapped ID is not there |
| Restart.WrappedIDCollides | internal/logging/store.go:362-365 | a log of two entries after whose recovery the next generated ID is that of the first |
| Restart.CounterCovers | internal/logging/store.go:730-748 | after recovery the counter is at least the number in every restored ID |
| Restart.GeneratedIDReadsBack | internal/logging/store.go:362-365 | the number in a generated ID reads back as the counter's next value |
| Restart.NumberParses | internal/logging/store.go:730-748 | a printed number, with or without a sign, reads back as itself when it fits 64 bits, and not at all otherwise |
| Restart.DecodedOrSkipped | internal/logging/persistence.go:109-142 | every line is decoded or skipped, and as many are skipped as do not decode |
| Restart.StoredIsRecorded | internal/logging/store.go:359-371 | what a store hands out has an ID, a time and a level that storing again leaves alone |
| Restart.LevelIsStable | internal/logging/store.go:513-525 | normalising a stored level twice is normalising it once |
| Sse.StreamSSE | internal/ctlclient/sse.go:45-95 | the line loop with its event and data buffer delivers the events of the complete lines |
| Sse.PrintThenParse | internal/http/logs.go:356-366 | for any list of sendable messages interleaved with comments, the parser delivers exactly those types and payloads in order |
| SseExact.SurvivesExactly | internal/ctlclient/sse.go:58-92 | a single message comes back as itself if and only if type and payload are trimmed and newline-free and the payload is not empty |
| SseExact.FeedAllVolume | internal/ctlclient/sse.go:58-92 | the parser never delivers or buffers more characters than it read |
| SseFields.BlockIsRead | internal/ctlclient/sse.go:58-92 | from any block of field, comment and unknown lines, with or without carriage returns, the parser hands on exactly one event with the last type and identifier and the data values one under the other, or nothing without data |
| TickGroups.GroupByApart | research/eth_q1_breakout_t3_shape_compare.py:139-146 | grouping is independent on the two sides of a bucket boundary |
| TickStream.ChunksDoNotMatter | research/eth_q1_breakout_t3_shape_compare.py:112-160 | time-ordered ticks give the same groups as one batch grouping of the kept ticks, however they are cut into files and chunks |
| TickStream.TickChunksDoNotMatter | research/backTest.py:187-227 | the same for the minute loop with its optional bounds and early end |
| TickStream.KeptExactly | research/eth_q1_breakout_t3_shape_compare.py:117-124 | a tick is kept as often as it was read if its time lies in the closed range, otherwise not at all |
| SecondBars.ReadSecondBars | research/eth_q1_breakout_t3_shape_compare.py:104-160 | all files, then the carried second |
| SecondBars.BuildContinuousSecondBars | research/eth_q1_breakout_t3_shape_compare.py:104-177 | reading and filling give the bars that the exactness theorem is about |
| GapFill.SecondBarsExact | research/eth_q1_breakout_t3_shape_compare.py:104-177 | the ticks kept are those in the closed range; bars exist if and only if there are any and the start is a whole second; then there is one for every second from the start to the end, volume is conserved, a traded second shows its ticks' first, highest, lowest and last price, and another one the price carried from the last trade |
| GapFill.CarriedClose | research/eth_q1_breakout_t3_shape_compare.py:172-173 | forward filling carries the price of the last tick up to that second |
| GapFill.VolumeSoFar | research/eth_q1_breakout_t3_shape_compare.py:177-177 | up to every second the volume of the bars is that of the ticks before it |
| GapFill.VolumeAppend | research/eth_q1_breakout_t3_shape_compare.py:144-150 | volume adds up over ticks, and a single tick trades its own quantity |
| GapFill.ExtremesAreExtreme | research/eth_q1_breakout_t3_shape_compare.py:144-150 | high and low of a group are prices of it and bound all others |
| TickEvents.Summarize | research/backTest.py:187-227 | the minute loop, with its carried minute and its early end, yields the summaries of the streamed groups |
| TickEvents.MinuteEvents | research/backTest.py:229-251 | ordering by the earlier extreme, dropping repeats and numbering yield the events of the minute |
| TickEvents.BuildTickEventStream | research/backTest.py:151-258 | the whole stream, sorted by time and rank |
| TickEvents.EventStreamExact | research/backTest.py:151-258 | the stream is that of one batch grouping of the ticks in range; it is in order before the final sort; every event is the tick of its minute that its corner names, first, last, first of the highest or first of the lowest, numbered in order; the first and the last event are at the first and the last tick, and the events' prices bound all prices of the minute |
| TickEvents.DedupLosesNothing | research/backTest.py:245-249 | every dropped point stands, by time and price, in what is kept |
| TickEvents.DedupEnds | research/backTest.py:245-249 | the ends stay, and no two neighbours are at the same time and price |
| TickEvents.EarlierExtremeFirst | research/backTest.py:229-243 | of the two extremes the one traded earlier comes first, the high when both were at one instant |
| TickEvents.SortSorts | research/backTest.py:254-255 | the final sort orders any events by time and rank and keeps every one |
| TickEvents.HighIsFirst | research/backTest.py:139-143 | the high of a minute is the first of its highest ticks |
| SecondReplayEngine.Engine.Run | research/eth_q1_breakout_t3_shape_compare.py:882-925 | the engine's variables end as the replay on values that the theorems below are about, bar by bar and second by second, skipping bars without seconds or ATR |
| SecondReplayEngine.Engine.Step | research/eth_q1_breakout_t3_shape_compare.py:921-1616 | one second: observe, then hold, or try the ready side |
| SecondReplayEngine.Engine.BeginBar | research/eth_q1_breakout_t3_shape_compare.py:895-919 | a bar resets its counters and forgets windows older than one bar |
| SecondReplayEngine.Engine.See | research/eth_q1_breakout_t3_shape_compare.py:928-957 | running extremes, the live signal, and the sides that external events make ready |
| SecondReplayEngine.Engine.LockBreakout | research/eth_q1_breakout_t3_shape_compare.py:961-1028 | the engine's own breakout opens the window of its side unless a filter or the cooldown forbids it |
| SecondReplayEngine.Engine.LockExternal | research/eth_q1_breakout_t3_shape_compare.py:1030-1061 | in the re-entry window mode, a ready external event opens the window and is consumed, at most once a bar |
| SecondReplayEngine.Engine.Fill | research/eth_q1_breakout_t3_shape_compare.py:1118-1214 | a triggered window fills once and closes, and opens a position if the bar's trades allow it |
| SecondReplayEngine.Engine.Open | research/eth_q1_breakout_t3_shape_compare.py:255-282 | price with slippage, notional, ATR stop, commission and the ledger row of an entry |
| SecondReplayEngine.Engine.Hold | research/eth_q1_breakout_t3_shape_compare.py:1469-1614 | trail, exit check, then water mark, protection and trail |
| SecondReplayEngine.Engine.Close | research/eth_q1_breakout_t3_shape_compare.py:1582-1606 | price with slippage, profit, commission and the ledger row of an exit |
| SecondReplayEngine.NextEvent | research/eth_q1_breakout_t3_shape_compare.py:424-439 | the loop returns the first unconsumed event of the list, if it has been touched |
| SecondReplayEngine.HasInterest | research/eth_q1_breakout_t3_shape_compare.py:442-452 | true if and only if some event of the list is unconsumed |
| EngineExits.ExitsExactly | research/eth_q1_breakout_t3_shape_compare.py:1469-1614 | in every second of a run that finds a position open: it is left if and only if the second's adverse extreme reaches the best of the entry's ATR stop and all candidates so far, with its minimum hold over, or the previous low (high) of a protected one, or its time is up, in this order; then the next state is flat with the exit row, slipped price, profit, commission and window written out, otherwise nothing changes but the position |
| EngineOpenings.OpensExactly | research/eth_q1_breakout_t3_shape_compare.py:936-1466 | in every second of a run that finds none open: which side may trade, which breakout is recorded and which event taken, and whether a window whose price fills is entered, at what price, share and stop; the windows close exactly then, and nothing else happens |
| EngineBars.ShowsExactly | research/eth_q1_breakout_t3_shape_compare.py:758-791 | what a second shows: its prices, the close before it in the bar, and the live ATR, average and close of the bar so far, or the closed signal |
| EngineBars.StepsAreTimed | research/eth_q1_breakout_t3_shape_compare.py:882-893 | over ordered seconds the steps of a bar are those from its own time up to and including that of the next bar |
| EngineBars.BarBegins | research/eth_q1_breakout_t3_shape_compare.py:895-919 | a new bar counts afresh, forgets windows more than a bar old, and keeps everything else |
| EngineBars.ForcedExactly | research/eth_q1_breakout_t3_shape_compare.py:936-957 | exactly the sides that an awaited event or a window from one concerns become ready whatever their regime, and outside the live mode stay so |
| EngineBars.RunEnds | research/eth_q1_breakout_t3_shape_compare.py:1618-1645 | a position still open at the end is left at the last close, with the row written out |
| EngineLedger.ReplayLedger | research/eth_q1_breakout_t3_shape_compare.py:1118-1645 | the ledger alternates entry and exit of the same position and ends with an exit, every balance follows from the one before, and the last is the final balance |
| EngineLedger.LedgerOfBars | research/eth_q1_breakout_t3_shape_compare.py:882-1616 | the same after every number of bars, with the open position being the last row's |
| Attribution.PairRows | research/eth_q1_breakout_t3_shape_compare.py:1677-1707 | the scan pairs each exit with the last entry before it |
| Attribution.RowsExplainBalance | research/eth_q1_breakout_t3_shape_compare.py:1677-1707 | on any alternating ledger, pair profits minus commissions minus what is over-credited is the change of the balance |
| Attribution.PairsRecoverProfit | research/eth_q1_breakout_t3_shape_compare.py:1677-1707 | after a whole replay every row is paired, and pair profits minus twice the commission on all notionals is final minus initial balance, up to what is over-credited |
| Attribution.CreditExact | research/eth_q1_breakout_t3_shape_compare.py:1582-1594 | a pair is credited with what the balance got if and only if entry price and notional are both positive or both not, or nothing was gained or staked, or the price is zero |
| Attribution.RecoveryExact | research/eth_q1_breakout_t3_shape_compare.py:1677-1707 | in every replay this decides pair by pair whether the credit is what the trade booked; if all guards agree, pair profits minus commissions are final minus initial balance |
| Recovery.CalmFeedRecovers | research/eth_q1_breakout_t3_shape_compare.py:1677-1707 | with shares and multipliers that are not negative, a trade cost of at most the balance, a non-negative initial balance, and a feed whose triggered fills have positive prices and moderate ATRs, pairing recovers the profit of the run |
| Recovery.NegativeSizeIsMisread | research/eth_q1_breakout_t3_shape_compare.py:1687-1690 | a run of one bar, with a size multiplier of -1, whose pair is credited with a loss that the balance never had |
| EngineFloor.GeometricFloor | research/eth_q1_breakout_t3_shape_compare.py:255-282 | with ATR stops, no overrides, order share at most s and entry ATR at most r times the price, after n closed trades the balance is at least initial times (1 - s(2c + k + a r (1 + k)))^n |
| EngineEntries.EntriesArePriced | research/eth_q1_breakout_t3_shape_compare.py:1118-1190 | every entry of a run is at the re-entry price, with slippage, of a second that triggers the fill, with that second's ATR and time, all functions of feed and parameters alone |
| EngineEntries.FloorOfCalmFeed | research/eth_q1_breakout_t3_shape_compare.py:255-282 | the geometric floor from what is known before the run: the feed's fills have positive prices and ATRs of at most r times the price |
| FinalMarks.ReplayFloor | research/eth_q1_breakout_t3_shape_compare.py:1617-1645 | a whole replay on such a feed keeps the floor unless its last exit is a final mark |
| FinalMarks.MarkBelowFloor | research/eth_q1_breakout_t3_shape_compare.py:1617-1645 | a feed, calm for the shared parameters, on which the final mark of the one trade leaves less than the floor |
| FeedView.SeesTheFeed | research/eth_q1_breakout_t3_shape_compare.py:921-931 | in every state of a run a second sees what the feed shows there: running extremes of its bar, live signal and previous close |
| FloorArithmetic.TradeLoss | research/eth_q1_breakout_t3_shape_compare.py:1582-1594 | a trade that ends at or better than its initial stop loses at most k + a r (1 + k) of its notional before commission, long or short |
| EngineFloor.TriggerAtStopOrBetter | research/eth_q1_breakout_t3_shape_compare.py:1539-1545 | without overrides every triggered exit is an SL or PT at or better than the current stop |
| EngineFloor.TrailNeverRetreats | research/eth_q1_breakout_t3_shape_compare.py:1534-1537 | no trailing update moves a stop back |
| EngineFloor.BaselineFloor | research/eth_q1_breakout_t3_shape_compare.py:836-849 | the shared parameters meet the assumptions, and a trade then costs at most 1.0505 percent of the balance |
| EngineProvenance.ReentryProvenance | research/eth_q1_breakout_t3_shape_compare.py:1118-1214 | every SL- or PT-re-entry directly follows an exit of its side and shape with the matching reason, every other entry a genuine breakout of its side and shape, at most one bar earlier, and under the strict policy in an earlier second |
| EngineMatching.OneEntryPerBreakout | research/eth_q1_breakout_t3_shape_compare.py:1118-1214 | entries through breakout windows match breakouts one to one and in order, each following its own, and no two fall into the same signal bar |
| EngineProvenance.OpenKeeps | research/eth_q1_breakout_t3_shape_compare.py:565-634 | a fill through a window follows from what opened that window |
| EngineLimits.ReplayLimits | research/eth_q1_breakout_t3_shape_compare.py:961-1214 | no signal bar has more entries than `max_trades_per_bar`, the engine's own swing breakouts are more than the cooldown apart, and the k-th entry of a bar takes the k-th share of its shape's schedule, times its multiplier, of the balance before it |
| EngineStops.StopInClosedForm | research/eth_q1_breakout_t3_shape_compare.py:1530-1580 | in every state of a run the open position has seen exactly the steps after its entry, boundary seconds twice, as the feed shows them, and its initial stop is the ATR stop of its entry row; over these the water mark is the extreme since entry, the stop the best of the initial one and all candidates of active evaluations, and protection is armed if and only if it was at entry or some second reached the distance |
| StopHistory.FoldIsWater | research/eth_q1_breakout_t3_shape_compare.py:1548-1574 | folding the seconds yields a value that bounds entry and all extremes and is one of them |
| IntrabarAtr.LiveAtr | research/eth_q1_breakout_t3_shape_compare.py:758-791 | the live ATR is a function of closed ATR, running high and low and previous close, whatever the engine did |
| IntrabarAtr.AtrNeverFalls | research/eth_q1_breakout_t3_shape_compare.py:758-791 | within a bar it never falls, and it stays above thirteen fourteenths of the closed ATR |
| IntrabarAtr.PreCheckIsIdle | research/eth_q1_breakout_t3_shape_compare.py:1534-1537 | with a positive activation, a trail that is not negative, no overrides, closes within their ranges and a positive closed ATR, the update before the exit check changes no position after the first second of a bar, whatever happened before |
| IdleUpdate.IdleExactly | research/eth_q1_breakout_t3_shape_compare.py:1534-1537 | with the shared parameters it is idle in all later seconds of all bars with a closed ATR c >= 0, in all runs, if and only if c > 0 |
| IdleUpdate.MovesOnlyFromRest | research/eth_q1_breakout_t3_shape_compare.py:1534-1537 | where it moves a stop after the first second, the closed ATR is zero and no second of the bar before had any range or left the previous close |
| IdleUpdate.ZeroAtrMovesTheStop | research/eth_q1_breakout_t3_shape_compare.py:1534-1537 | a run of two bars in which it moves the stop, in the second second of a bar whose closed ATR is zero |
| ExternalEvents.Prepare | research/eth_q1_breakout_t3_shape_compare.py:381-421 | for every bar and side the map holds exactly one event for each record whose lowered, trimmed side is "long" or "short" and that names the bar and a touch time, with that record's key, time and first shape name, by touch time and at one time in the order of the records; nothing else is in it |
| ExternalEvents.KeySideReadsBack | research/eth_q1_breakout_t3_shape_compare.py:392-404 | the key made for a record without one ends in a word that reads back as its side |
| ExternalEvents.SortIsStable | research/eth_q1_breakout_t3_shape_compare.py:418-420 | the sort orders by touch time, is a permutation, and keeps the order of equal times |
| ExternalEvents.ReadyIsEarliest | research/eth_q1_breakout_t3_shape_compare.py:424-439 | the chosen event is due and none unconsumed was touched earlier; none is chosen if and only if none is due |
| ExternalEvents.ExternalBreakouts | research/eth_q1_breakout_t3_shape_compare.py:1030-1116 | over a run the external breakouts are as many as the consumed keys and theirs, at most one per bar, each the event that was ready there given those taken before |
| ExternalEvents.TakesTheEarliest | research/eth_q1_breakout_t3_shape_compare.py:1030-1116 | with prepared events each external breakout of a replay takes the event of an earliest-touched record of its bar and side among those whose keys are not taken, and not before its touch time |
| EnhancedEngine.Engine.Run | research/backTest.py:1531-1556 | the engine's variables end as the replay on values that the theorems below are about, bar by bar and minute by minute |
| EnhancedEngine.Engine.Step | research/backTest.py:1553-1564 | one minute: hold, or pause, or try the ready side |
| EnhancedEngine.Engine.Fill | research/backTest.py:1593-1634 | a triggered window fills once and closes, in the trigger mode that is set |
| EnhancedEngine.Engine.Hold | research/backTest.py:1700-1833 | trail, exit check with the tiers, then water mark, protection and trail |
| EnhancedEngine.Engine.CheckBreaker | research/backTest.py:1835-1845 | the peak follows the balance up, and a drawdown above the limit pauses entries and writes a row |
| EnhancedDecisions.ExitsExactly | research/backTest.py:1700-1845 | in every minute of a run that finds a position open: it is left if and only if the adverse extreme reaches the best of the entry's ATR stop and all candidates so far, or the guard of a protected one, tightened by the tiers at two and three ATRs; then balance, peak, rows, breaker and window are written out, otherwise nothing changes but the position |
| EnhancedDecisions.OpensExactly | research/backTest.py:1556-1700 | in every minute of a run that finds none open: nothing during a cooldown or without a regime, otherwise which breakout is recorded and whether an open window whose price fills is entered, in each trigger mode |
| EnhancedDecisions.BarBegins | research/backTest.py:1531-1551 | a new bar counts its trades afresh, forgets windows more than a bar old, and keeps everything else |
| EnhancedDecisions.RunEnds | research/backTest.py:1849-1865 | a position still open at the end is left at the last close, and the breaker does not look at that |
| EnhancedBooks.ReplayBooks | research/backTest.py:1592-1700 | over a whole replay the trades alternate entry and exit of the same position, end with an exit and explain every balance; every re-entry follows the exit before it with the matching reason, every other entry a genuine breakout, of its side and at most one bar earlier, and takes its share of the balance; no bar has more entries than allowed, nor two through breakout windows |
| EnhancedFloor.PricesOfBars | research/backTest.py:1593-1831 | after every number of bars every entry is at a fill its minute allows, with slippage and that minute's ATR, and every exit, tiers included, at or better than the ATR stop of its entry |
| EnhancedFloor.GeometricFloor | research/backTest.py:1593-1845 | with order shares of at most s and a feed whose possible fills have positive prices and ATRs of at most r times the price, after n closed trades the balance is at least initial times (1 - s(2c + k + a r (1 + k)))^n |
| EnhancedFloor.ReplayFloor | research/backTest.py:1849-1865 | a whole replay keeps that floor unless its last exit is a final mark |
| EnhancedStops.StopInClosedForm | research/backTest.py:1711-1818 | in every state of a run the open position has seen exactly the minutes after its entry, and its initial stop is the ATR stop of its entry row; over these the water mark is the extreme since entry, the stop the best of the initial one and all candidates of active evaluations, with or without an activation, and protection is armed if and only if it was at entry or some minute armed it, with or without tiers |
| Tiers.TiersTighten | research/backTest.py:1730-1743 | the further the water mark is ahead, the tighter the protected level: more profit never loosens it, across all tiers, long and short |
| Tiers.TieredExitsNoLater | research/backTest.py:1728-1746 | in one minute and for the same position: when the rule without tiers leaves, the one with tiers does, at a raw price no worse |
| Tiers.TieredLeavesNoLater | research/backTest.py:1711-1766 | from the same entry on, over any minutes with positive ATRs: when the position without tiers has left, so has the one with tiers, and while both are held their stops and water marks agree |
| Tiers.NoLaterExactly | research/backTest.py:1711-1766 | for any list of ATRs: over all minutes with these ATRs, all parameters and positions, the tiered position has left when the plain one has, if and only if every ATR except the last is positive |
| Tiers.PlainLeavesFirst | research/backTest.py:1748-1757 | whenever that condition fails: minutes with these ATRs over which the plain position leaves and the tiered one stays |
| Tiers.RunLeavesFirst | research/backTest.py:1711-1766 | a feed of three bars after which the run without tiers is flat and the one with tiers still holds |
| Breakers.PeakIsMaximum | research/backTest.py:1835-1837 | the peak bounds the initial balance and all balances after exits, and is one of them |
| Breakers.BreakerOfBars | research/backTest.py:1531-1847 | after every number of bars: the peak is that maximum, a breaker row follows an exit if and only if there is a limit, the peak is positive and the balance is below peak * (1 - limit), the recorded drawdown d satisfies peak * (1 - d) == balance, and no entry falls into a cooldown |
| Breakers.BreakerOfReplay | research/backTest.py:1531-1865 | the same for the whole ledger, final mark included |
| Breakers.PausedExactly | research/backTest.py:1558-1562 | in every state of a run, before and inside every bar, the engine is paused if and only if the cooldown of some trip covers the bar |

## Left out

- Floating point: prices, quantities and balances are exact reals, so rounding and the 32-bit tick prices are not captured.
- Text outside ASCII: upper and lower case are mapped for ASCII letters only; white space is that of Go's `unicode.IsSpace` also where the program is Python.
- Messages and displays that only render fields (violation texts, breaker percentages) are kept as fields.
- JSON, base64 and RFC 3339: a cursor is its key, a persisted line goes through an encoder and a decoder that are assumed to be inverse and to write one trimmed line; log attributes other than the component are not modelled.
- GeometricFloor: speaks, in both engines, of the states before the final mark; whole replays are `FinalMarks.ReplayFloor` and `EnhancedFloor.ReplayFloor`.
- ReadTailLines: a file is its content; opening, seeking and I/O errors are not modelled, nor the listing and sorting of paths.
- BootstrapFromDisk: covers the system log; the request log goes through the same generic code.
- BumpAtomicSequence: the compare-and-swap loop is taken without concurrent writers; locks are not modelled, and appends during a paging walk neither.
- StreamSSE: works on a finite text; the HTTP request, its signature and the flushing are not modelled.
- The request-log query: the same loop with another filter; the paging theorems hold for every filter. Redaction and masking are not modelled.
- SecondReplayEngine.Engine.LockExternal: the branches that enter directly at an external event are not modelled, only the re-entry window mode.
- SecondReplayEngine.Engine.Run: the entry modes that open directly at an external event, other stop modes and anchors, and the pullback trigger are not modelled; nor are the diagnostics counters. The quality and sizing filters are arbitrary functions of side, shape, bar and second. A zero entry price, which divides by zero in the program, counts as no profit.
- EnhancedEngine.Engine.Step: the direct initial entry of the other zero-initial mode is not modelled; there a step can open twice.
- EnhancedEngine.Engine.Run: the 4h regime, the direct initial entry, other stop modes and anchors, and the schedule variants are not modelled; an empty schedule, which the program refuses, orders nothing.
- `_intrabar_signal` and the position dictionary are values in the engines' fields, so that updating them in place is assigning a new value.
- The tick replay `run_tick_full_scan_dual`: near copy of the enhanced engine on single ticks.
- `run_backtest_1min_granularity` and the moving-average and variant scripts: near copies with weaker invariants.
- Raw and kept row counts of the tick readers, header detection and zip files.
- Signal frames (rolling ATR, averages, levels) are inputs; nothing is claimed about look-ahead.
- Log broker and dashboard delivery: messages for slow subscribers are dropped, so there is no delivery to prove.
- HTTP handlers, authentication, configuration, the service and store packages, fill reconciliation and supervision: I/O and wrappers.
