# Verification model of the HFT bookkeeping engine

The engine keeps an append-only event log and two projections of it: positions per symbol
(weighted-average cost basis, realized and unrealized profit) and orders per id (lifecycle,
average fill price, open exposure). A pre-trade risk check reads both, a FIX gateway drives
them, and a kill switch winds them down. This project models that bookkeeping core and
proves what it does over whole runs.

How it is laid out, in dependency order:

- `OrderEvent`, `FlatTable`, `Arithmetic`, `OrderIds`: events, 8-byte names, the slot arrays
  that stand in for maps, truncating division, order ids.
- `Position`, `PositionLedger`, `PositionSymmetry`, `MachineArithmetic`: one symbol's
  position; profit against cash; envelope, granularity and mirror; overflow.
- `EventLog`, `PositionTracker`, `Order`, `OrderManager`, `OrderArithmetic`: the log and the
  two projections, each as a function of the events and as a class over arrays that is
  proved against that function.
- `Book`, `RiskChecker`, `LimitReach`: both projections together; exposure, agreement, the
  limit and where it stops protecting.
- `FIXGateway`, `GatewayRuns`, `GatewayHistory`, `GatewayFailures`: the gateway's steps and
  class, what holds over its runs, a run told from its steps and the fields of the reports,
  and runs that break what one would expect.
- `LogProtocol`, `LogCreation`, `Killswitch`: the log taken apart into stores with concurrent
  readers and crashes; its creation; the emergency shutdown.

`dafny verify dfyconfig.toml` checks everything.

Quantities, prices and cash are mathematical integers; `NoOverflow`, `FillsFit` and
`ExposureFits` say when the machine's integers agree. The handlers validate nothing, so
legitimate input is a guard on steps: `Conforms` (one order), `ConformsTo` (the book),
`StepConforms` (the gateway). How new an order's id has to be is a rule of its own
(`IdRule`): the order counter starts over with every process, so under `FreshIds` no order
is sent after a restart on a log that holds one, and the limit theorems are proved for the
wider `SettledIds` and `CountedIds`. Where an event or a state can break a property, a lemma
ending in `Iff` gives the exact condition, and `GatewayFailures` has runs that do it.

Where the code and its documentation disagree, the model follows the code:

- "Every fill must reconcile perfectly" (README.md:27-29): averaging truncates, so profit
  and cash differ by the drift; they agree exactly when the divisions are exact.
- "Transitions are strictly forward" (include/OrderManager.h:12-18): no handler looks at the
  state; `ForwardIff` says which events keep it true.
- `execute()` is documented as `cancel_all()` and then `flatten()` (README.md:294); it only
  cancels (gateway/Killswitch.h:59-78).
- "True exposure" (README.md:259-266) nets open buys against open sells, so the limit does
  not bound the position, nor with cancels the true exposure itself, under two-sided flow
  (`TwoSidedFlowBreaksLimit`, `DefaultLimitsExceeded`); nor does it hold across restarts that
  reuse the id of an open order (`RestartsBreakLimit`).
- Startup replay is to reconstruct state so that work can go on (include/EventLog.h:38-39),
  but `order_counter_` starts at 0 again (gateway/FIXGateway.h:118), and the first new orders
  overwrite old ones (`RestartBreaksAgreement`).
- `append` stamps its own copy (include/EventLog.h:54-62), so live tables carry sequence
  numbers of 0 and replayed tables the real ones.

## Model

| member | source | states |
|---|---|---|
| OrderEvents.StrncmpIsNameEquality | include/PositionTracker.h:141-146 | a slot's 8-byte name equals a looked-up string under `strncmp` exactly when `strncpy` stores that string as the same name |
| OrderIds.DecimalReadsBack | gateway/FIXGateway.cpp:145-148 | the number part of an id is all digits and read back gives the counter |
| OrderIds.IdsDistinctIff | gateway/FIXGateway.cpp:145-148 | the first n ids of a gateway lifetime are stored as distinct 8-byte names exactly when n <= 100000 |
| OrderIds.FirstCollision | gateway/FIXGateway.cpp:145-148 | counter 100000 is stored under the same id as counter 10000 |
| PositionLedger.LedgerIdentity | include/PositionTracker.h:100-134 | after any stream of fills and marks, realized profit = net cash + average * net + remainders of averaged buys - remainders of averaged sells |
| PositionLedger.CloseGap | include/PositionTracker.h:107-113 | a fill against the position, cross or not, books exactly the cash it moves and drifts by nothing |
| PositionLedger.RemainderBound | include/PositionTracker.h:102-106 | an averaging step discards between 0 and (shares then held - 1) ticks, and nothing when it opens a position |
| PositionLedger.DriftBound | include/PositionTracker.h:126-131 | over any stream, the drift of a side is at least 0 and at most (peak position - 1) per averaged fill |
| PositionLedger.RemainderZeroIff | include/PositionTracker.h:102-106 | an averaging step discards nothing exactly when the shares then held divide the cost then held, which is known before the fill |
| PositionLedger.ReconcilesExactlyIffDivisionsExact | README.md:27-29 | books and cash agree after every operation exactly when every fill that averages passes that divisibility test in the state it meets |
| PositionLedger.LossNotBooked | README.md:27-29 | a three-fill round trip that spends 2 in cash and books a profit of 0 |
| PositionLedger.FlatProfit | include/PositionTracker.h:100-134 | once flat, booked profit is net cash plus the drift |
| PositionLedger.FlatShowsNoProfit | include/PositionTracker.h:136-139 | a flat position has unrealized profit 0, whatever was traded and marked before |
| PositionLedger.MarkedCorrectlyIff | include/PositionTracker.h:85-90 | a fill always leaves unrealized profit equal to (last - average) * net; a mark does exactly if its price is positive or the average, or the position flat |
| PositionLedger.MarkedThroughoutIff | include/PositionTracker.h:85-90 | over a stream, unrealized profit is right after every operation exactly when every mark of an open position was positive or at the average |
| PositionLedger.UnrealizedIsMarked | include/PositionTracker.h:136-139 | with positive marks, unrealized profit is right after every stream |
| PositionLedger.LastPriceIsLastMark | include/PositionTracker.h:85-90 | the last price is that of the last mark that found the position open |
| PositionLedger.MarkedProfitReconciles | include/PositionTracker.h:85-90 | realized + unrealized of an open marked position = net cash + last price * net + drift |
| PositionSymmetry.AverageWithinBasis | include/PositionTracker.h:102-112 | an open position's average lies between the cheapest and dearest fill that built it since it was last flat or crossed |
| PositionSymmetry.PartsAverage | include/PositionTracker.h:102-106 | adding in k parts at one price gives an average at most k - 1 ticks below adding at once, never above |
| PositionSymmetry.FillGranularity | include/PositionTracker.h:100-134 | cutting a trade into k fills changes nothing when opening, reducing or crossing; when adding, the average is at most k - 1 ticks lower, the unrealized profit of a marked position moves by those ticks times the net quantity, and every other field is the same |
| PositionSymmetry.MirrorRun | include/PositionTracker.h:100-139 | swapping all buys and sells of a stream negates position and profits, swaps totals and leaves the average identical |
| MachineArithmetic.NoOverflow | include/PositionTracker.h:85-139 | with prices in [0,P], bought and sold volume <= V < 2^31 and P*V < 2^63, every intermediate fits and abs(realized) <= P * min(bought, sold) |
| MachineArithmetic.NoOverflowIff | include/PositionTracker.h:85-139 | those bounds are exact: no stream within price P and volume V overflows exactly when V < 2^31 and P*V < 2^63 |
| MachineArithmetic.TotalsAreTraded | include/PositionTracker.h:100-134 | the totals are the quantities bought and sold, and the net is their difference |
| MachineArithmetic.CheckedRunSound | include/PositionTracker.h:85-139 | whatever the machine computes without overflow is the mathematical result, with every field in its type |
| OrderArithmetic.FillsFit | include/OrderManager.h:180-191 | under the same kind of bound no intermediate of the average fill price overflows |
| OrderArithmetic.FillsFitIff | include/OrderManager.h:180-191 | that bound is exact |
| OrderArithmetic.CheckedFillSound | include/OrderManager.h:180-191 | what the machine computes for a fill without overflow is the mathematical result, in its types |
| OrderArithmetic.CheckedExposureSound | include/OrderManager.h:145-154 | an exposure that the 32-bit loop returns is the sum |
| OrderArithmetic.ExposureFits | include/OrderManager.h:145-154 | no partial sum of `open_exposure` leaves 32 bits if open buys and open sells of the symbol each fit |
| PositionTrackers.TrackedSymbols | include/PositionTracker.h:148-155 | after any stream the slots belong, in order, to the first 1024 distinct filled symbols: no duplicates, no moves, later symbols dropped |
| PositionTrackers.TrackerRefinesMap | include/PositionTracker.h:67-83 | `get` of a symbol with a slot is the fold of that symbol's own fills and marks; of any other symbol, nothing |
| PositionTrackers.SymbolLedger | include/PositionTracker.h:61-90 | the ledger identity for every symbol of the table, under streams that mix all symbols |
| PositionTrackers.LivePositionsEqualReplay | include/PositionTracker.h:61-65 | a live table with marks in between equals the table replayed from the stamped log but for sequence, last price and unrealized profit |
| PositionTrackers.ReplayForgetsMarks | include/PositionTracker.h:61-65 | every replayed position has last price 0 and unrealized profit 0 |
| PositionTrackers.PositionRecord | include/PositionTracker.h:115-133 | a replayed position's sequence number is the index of the last fill of its symbol in the log |
| PositionTrackers.PositionTracker.ApplyBuy | include/PositionTracker.h:100-116 | the slot becomes the position after the buy; every other slot is unchanged |
| PositionTrackers.PositionTracker.ApplySell | include/PositionTracker.h:118-134 | the slot becomes the position after the sell; every other slot is unchanged |
| PositionTrackers.PositionTracker.ApplyEvent | include/PositionTracker.h:67-76 | the in-place update is the table function of the event |
| PositionTrackers.PositionTracker.GetPosition | include/PositionTracker.h:78-83 | the search returns the position of the named symbol or nothing |
| PositionTrackers.PositionTracker.GetOrCreate | include/PositionTracker.h:148-155 | finds the slot, or appends a zeroed one unless the table is full |
| PositionTrackers.PositionTracker.Mark | include/PositionTracker.h:85-90 | marks the named open position and nothing else |
| PositionTrackers.PositionTracker.ReplayFrom | include/PositionTracker.h:61-65 | whatever the table held, it becomes the replay of the log |
| Orders.ForwardIff | include/OrderManager.h:12-18 | a handler moves an order strictly forward exactly when the event meets a guard the handlers do not check |
| Orders.LateFillReopens | include/OrderManager.h:180-191 | a partial fill after a cancel makes the order open again |
| Orders.ConformingStep | include/OrderManager.h:180-213 | on conforming events open means 0 <= filled < original, Filled means equality, and the state only moves forward |
| Orders.AverageFillDrift | include/OrderManager.h:183-187 | after n positive fills the average is the floor of the exact average or at most n - 2 ticks below; exact for one and two |
| Orders.AverageFillWithin | include/OrderManager.h:183-187 | it stays between the smallest and the largest fill price |
| OrderManagers.TrackedOrders | include/OrderManager.h:222-229 | the slots belong, in order, to the first 512 distinct new order ids |
| OrderManagers.OrdersRefineMap | include/OrderManager.h:113-129 | `get` of an id with a slot is the fold of that id's own events from its first new order; of any other id, nothing |
| OrderManagers.OrderAccounts | include/OrderManager.h:166-213 | an order asks for what its last new order or positive amends said, is in the state its last event other than an amend put it in, has filled the sum of its fills since, at an average of 0 for none, else within n - 2 ticks below the floor of the exact one and between cheapest and dearest |
| OrderManagers.OrderRecord | include/OrderManager.h:166-213 | in a numbered log, besides: opened by its last new order, last touched by its last event |
| OrderManagers.TotalStep | include/OrderManager.h:145-154 | an event moves a sum over the slots by exactly the change of the one order it names |
| OrderManagers.OrderManager.HandleNew | include/OrderManager.h:166-178 | opens or resets the slot of the id, or drops the order when the table is full |
| OrderManagers.OrderManager.HandleFill | include/OrderManager.h:180-191 | rewrites the named order's slot and no other, with the quantity, state and average that `OrderAccounts` describes; an unknown id changes nothing |
| OrderManagers.OrderManager.HandleCancel | include/OrderManager.h:193-198 | cancels the named order and no other |
| OrderManagers.OrderManager.HandleReject | include/OrderManager.h:200-205 | rejects the named order and no other |
| OrderManagers.OrderManager.HandleAmend | include/OrderManager.h:207-213 | amends quantity and price of the named order where they are positive |
| OrderManagers.OrderManager.ApplyEvent | include/OrderManager.h:113-122 | the in-place update is the table function of the event |
| OrderManagers.OrderManager.GetOrder | include/OrderManager.h:124-129 | the search returns the order of that id or nothing |
| OrderManagers.OrderManager.GetOrCreate | include/OrderManager.h:222-229 | finds the slot, or appends a zeroed one unless the table is full |
| OrderManagers.OrderManager.SumOpenExposure | include/OrderManager.h:145-154 | the loop computes the signed sum of the open remainders of the symbol |
| OrderManagers.OrderManager.ReplayFrom | include/OrderManager.h:107-111 | whatever the table held, it becomes the replay of the log |
| Books.ExposureConserved | include/OrderManager.h:142-154 | net + open exposure: unchanged by a conforming fill for every symbol, moved by exactly the signed quantity of a counted new order and minus the signed remainder of a cancelled or rejected one |
| Books.FillConservesIff | include/OrderManager.h:180-191 | a matching fill leaves true exposure alone exactly when the order is open and the fill is within the remainder |
| Books.NewOrderCountedIff | include/OrderManager.h:166-178 | any new order moves the true exposure of its symbol by its signed quantity, and no other symbol's, exactly when its id is that of a closed or filled-up order, or is new and the order table has room |
| Books.AgreementIff | include/OrderManager.h:180-191 | from agreement, positions still equal the orders' signed fills after an event exactly when the event meets a stated guard |
| Books.AgreementThroughout | include/PositionTracker.h:67-76 | over a stream from empty, the projections agree at every state exactly when every event met the guard |
| Books.LifecycleStep | include/OrderManager.h:12-18 | a conforming event keeps every order consistent, in its slot, and moving forward |
| RiskCheckers.CheckExplained | include/RiskChecker.h:47-87 | every answer of the full check: size, value, position limit, cross and loss, the first that fails |
| RiskCheckers.CheckPositionExplained | include/RiskChecker.h:89-131 | every answer of the position-only check; without a position only size and value |
| RiskCheckers.ApprovedIff | include/RiskChecker.h:47-87 | an order passes exactly if size and value are within their limits, it leaves the true exposure within the position limit, does not take it through zero unless allowed, and the symbol's realized loss is within its limit |
| RiskCheckers.DefaultLimitsIff | include/RiskChecker.h:32-38 | the same in numbers, for the limits the program ships |
| RiskCheckers.LimitSafety | include/RiskChecker.h:60-72 | over every legal run, true exposure is at most limit + unfilled remainder of lost sells and at least -limit - that of lost buys; new orders may take new ids or those of settled orders |
| RiskCheckers.LimitSinceLastOrder | include/RiskChecker.h:60-72 | tighter, and for the ids of any closed orders: only what was cancelled or rejected since the last order of the symbol counts, because every approved order puts the exposure back inside the limit |
| RiskCheckers.LimitHoldsWithoutCancels | include/RiskChecker.h:67-72 | with nothing cancelled or rejected, abs(true exposure) <= limit |
| RiskCheckers.OneSidedPositionSafety | include/RiskChecker.h:60-72 | if a symbol's open orders are never on both sides at once, the position and all it can become stay within the limit, cancels or not |
| RiskCheckers.LifecycleThroughout | include/OrderManager.h:12-18 | from any moment of a legal run to any later one, orders keep slot, id, symbol and side and their states only move forward |
| RiskCheckers.RiskChecker.Check | include/RiskChecker.h:47-87 | the full check, on the tracker's position and the orders' open exposure |
| RiskCheckers.RiskChecker.CheckPositionOnly | include/RiskChecker.h:89-131 | the position-only check, on the tracker's position |
| LimitReach.NetStaysInReach | include/RiskChecker.h:60-72 | whatever conforming reports arrive, a position stays between net - open sells and net + open buys |
| LimitReach.ReachIsReached | include/RiskChecker.h:60-72 | both ends are reached by fills of one side at its limit prices |
| LimitReach.ExposureReachIsReached | include/RiskChecker.h:60-72 | true exposure reaches the same two ends by cancels of the other side |
| LimitReach.PositionLimitIff | include/RiskChecker.h:67-72 | every continuation keeps abs(net) <= bound exactly when both ends of the reach do |
| LimitReach.ExposureLimitIff | include/RiskChecker.h:67-72 | every continuation keeps abs(true exposure) <= bound exactly when net + open buys and net - open sells do; being inside the bound itself is not enough |
| LimitReach.TwoSidedFlowBreaksLimit | include/RiskChecker.h:67-72 | up to 512 alternating buys and sells of any size and price that one order may have pass every check, and leave a state from which fills can take the position, and cancels the true exposure, to half of them times the order size |
| LimitReach.BlindSpot | README.md:258-266 | from any state, an order the position-only check passes it passes n more times while nothing fills, and the exposure grows by n orders; the full check passes the next exactly while all of them stay within the limit and do not cross |
| LimitReach.FullTableForgets | include/OrderManager.h:222-229 | with 512 orders in the table, any number of new orders leave the book, and so every later check, as it was |
| EventLogs.EventLog.Append | include/EventLog.h:54-72 | appends the stamped copy, returns its number, makes it durable; a full log changes nothing |
| EventLogs.EventLog.Read | include/EventLog.h:74-77 | the event of that number, or nothing at or beyond the head |
| EventLogs.EventLog.Open | include/EventLog.h:88-114 | a missing file gives an empty log, a wrong magic number is refused, any other file is resumed at its header's number: a usable log of what the header covers exactly when the file has its full size and the header is within it |
| LogProtocol.AlwaysConsistent | include/EventLog.h:54-82 | over every interleaving of stores, readers, marks and crashes: slots below the head complete and numbered, header equal to the head or one behind, readers on prefixes, tables equal to a replay of a log prefix |
| LogProtocol.PublishedNeverChanges | include/EventLog.h:62-66 | while the process runs the log only grows |
| LogProtocol.ReplayIsSnapshot | include/EventLog.h:79-82 | a completed replay read exactly the log as it stood when it loaded the head |
| LogProtocol.RestartRecoversLog | include/EventLog.h:109-113 | reopening yields the published log, or that log without its last event exactly when the crash fell between publishing and the header store |
| LogProtocol.NoAppliedEventLost | gateway/FIXGateway.cpp:76-78 | in every reachable state, what either table holds is a replay of a prefix of the durable log, and a restart rebuilds both from all of it |
| LogProtocol.StoresAreAppend | include/EventLog.h:54-72 | the four stores uninterrupted are the one step of `Append` |
| LogProtocol.BookingCompletes | gateway/FIXGateway.cpp:76-78 | the stores and the two updates after them leave the event in the log, durable and in both tables, and the writer ready |
| LogProtocol.ReaderProgress | include/EventLog.h:79-82 | a replay short of its head can always read exactly the next event of the log |
| LogProtocol.MarkAnyTime | include/PositionTracker.h:85-90 | a market price may come between any two stores and reaches its own position alone |
| GatewayRuns.LiveEqualsReplay | src/main.cpp:57-63 | after any run whatsoever, restarts and misbehaving counterparties included, the log is numbered without gaps and the tables a restart would rebuild are the live ones but for sequence numbers and marked fields |
| GatewayRuns.OrdersDistinct | include/OrderManager.h:222-229 | after any run no two orders of the live table share an id |
| GatewayRuns.GatewayAgreementIff | gateway/FIXGateway.cpp:76-78 | over any run, the live positions equal the live orders' signed fills at every moment exactly when every booked event met the guard of `AgreementIff`, which late fills and overfills do |
| GatewayRuns.SendAgreementIff | gateway/FIXGateway.h:118 | a sent order keeps the projections in agreement exactly when its id is new or that of an order without fills |
| GatewayRuns.RunIsFaithful | gateway/FIXGateway.cpp:94-126 | after any run that conforms under a rule on ids, the log is a run of events that went through the checks under that rule, and its replay is the live state |
| GatewayRuns.GatewayLimitSafety | gateway/FIXGateway.cpp:104-117 | the exposure bound on the live gateway, over every run whose new orders take new ids or those of settled orders, restarts included |
| GatewayRuns.GatewayLimitSinceLastOrder | gateway/FIXGateway.cpp:104-117 | the tighter bound on the live gateway, for runs that take over the slots of any closed orders |
| GatewayRuns.GatewayLimitWithoutCancels | gateway/FIXGateway.cpp:104-117 | with none of a symbol's live orders cancelled or rejected, abs(true exposure) <= limit |
| GatewayRuns.GatewayExposureIff | gateway/FIXGateway.cpp:104-117 | in any state of a conforming run, the exchange can take a symbol's true exposure past a bound exactly when its open orders on one side reach past it |
| GatewayRuns.GatewayPositionIff | gateway/FIXGateway.cpp:104-117 | the same of its position, if the position table has a slot for the symbol |
| GatewayRuns.GatewayOneSidedSafety | gateway/FIXGateway.cpp:104-117 | if a symbol's live open orders are never on both sides, its position stays within the limit, through cancels, restarts and reused ids of closed orders |
| GatewayRuns.GatewayLifecycle | include/OrderManager.h:12-18 | between any two moments of a run whose new orders have new ids, live orders keep slot, id, symbol and side and move forward only |
| GatewayRuns.IdsFreshInOneLifetime | gateway/FIXGateway.cpp:145-148 | in one lifetime from an empty log the next id is new to the order table while the counter is below 100000 |
| GatewayRuns.OnlyOrderIds | gateway/FIXGateway.cpp:145-148 | over any number of lifetimes every id in the order table is one that `next_order_id` makes |
| GatewayRuns.OneLifetimeSafety | gateway/FIXGateway.cpp:94-126 | for the first 512 ids of a process on an empty log, positive quantities and conforming reports alone give the exposure bound for every symbol and the agreement of the projections |
| GatewayHistory.ConnectedIffLoggedOn | gateway/FIXGateway.cpp:22-30 | the gateway is connected exactly when the last logon, logout or restart of the run was a logon |
| GatewayHistory.SendSteps | gateway/FIXGateway.cpp:94-126 | what a send does to every part of the state, by connection, limits and room in the log |
| GatewayHistory.SendIgnoredIff | gateway/FIXGateway.cpp:99-109 | over every run, a send leaves the whole state, counter included, as it was exactly when not logged on or outside a limit |
| GatewayHistory.SendAnswers | gateway/FIXGateway.cpp:94-126 | and which answer it gives; a sent order's id is "ORD" and the counter |
| GatewayHistory.StopLoss | include/RiskChecker.h:83-84 | while a symbol's realized loss exceeds the limit, no send of it changes anything |
| GatewayHistory.LoggedOrdersKeptLimits | gateway/FIXGateway.cpp:104-117 | every new order in the log of any run was sent while logged on, with that send's terms, time and id, and kept every limit in the state it was sent in |
| GatewayHistory.ReportTranscribed | gateway/MessageTranslator.h:35-85 | a report is booked exactly for execution types 1, 2, 4 and 8, with its symbol, id, side, shares and price |
| GatewayHistory.LoggedReports | gateway/FIXGateway.cpp:63-78 | every other entry of the log is a delivered report, numbered and timed |
| GatewayHistory.DeliverSteps | gateway/FIXGateway.cpp:63-78 | a delivered cancel or reject ends the order it names and a fill adds to it, other orders stay, other execution types change nothing |
| GatewayHistory.MarkSteps | include/PositionTracker.h:85-90 | a market price reaches the named open position and nothing else of the gateway |
| GatewayHistory.NetIsReported | gateway/MessageTranslator.h:66-81 | after every run, restarts included, a symbol's net is the shares its delivered fills bought less those they sold |
| GatewayHistory.PositionIsReported | include/PositionTracker.h:61-76 | and its average, realized profit and totals are those of these fills in order |
| GatewayHistory.GatewayLedger | include/PositionTracker.h:100-134 | the ledger identity on the live gateway, over the fields of the delivered reports |
| GatewayHistory.GatewayOrderAccounts | include/OrderManager.h:166-213 | every live order, after every run, accounts for the log's events of its id as `OrderAccounts` says |
| GatewayFailures.DefaultLimitsExceeded | include/RiskChecker.h:32-38 | with the limits `main` uses, 512 alternating orders for 10,000 shares at up to 500.00 are all sent; the position and the true exposure can then reach 2,560,000 against a limit of 50,000 |
| GatewayFailures.FullTableSends | include/OrderManager.h:166-168 | once a process has filled the order table, an order that passes the check is sent as often as one likes and never enters the book |
| GatewayFailures.DefaultTableOverrun | include/RiskChecker.h:32-38 | with the limits `main` uses, after those 512 orders up to 99,488 buys of 10,000 shares are all sent while the true exposure stays 0 |
| GatewayFailures.RestartsBreakLimit | gateway/FIXGateway.h:118 | a buy in each of n lifetimes is approved and sent under the same id; log n orders, table and exposure one; the fills take the position to n times the order, whatever the limit |
| GatewayFailures.DefaultRestartsExceedLimit | include/RiskChecker.h:32-38 | with the limits `main` uses, 10,000 shares in each of 100 lifetimes become a position of 1,000,000 |
| GatewayFailures.RestartBreaksAgreement | gateway/FIXGateway.h:118 | buy, fill, restart, buy: the projections agree until the second buy, which passes the check and resets the filled order, and not after it |
| GatewayFailures.DefaultRestartBreaksAgreement | include/RiskChecker.h:32-38 | so it goes with the limits `main` uses, for any order for up to 10,000 shares at up to 500.00 |
| GatewayFailures.RestartedRunConforms | gateway/FIXGateway.h:118 | that run conforms but for the reused id of a settled order, so the limit theorems cover it |
| LogCreation.CreatedLogIsSound | include/EventLog.h:88-114 | from no file at all, through any creations, crashes, reopenings and work: a running process is on a whole file with a consistent log |
| LogCreation.WorkFollowsProtocol | include/EventLog.h:54-82 | a process at work on a created log goes through the protocol's own steps |
| LogCreation.OpensAgainIff | include/EventLog.h:88-114 | after a crash the log can be opened again exactly when the file did not exist yet or its magic number was stored |
| LogCreation.CrashBeforeMagic | include/EventLog.h:90-104 | a crash right after creating or extending the file leaves one that no later process can use |
| LogCreation.ReopenedLog | include/EventLog.h:109-113 | reopening a marked file gives the durable log and both tables rebuilt from all of it |
| FIXGateways.FIXGateway.SendOrder | gateway/FIXGateway.cpp:94-126 | blocked orders change nothing; an approved order is logged and then entered among the orders; a full log only consumes the id |
| FIXGateways.FIXGateway.OnMessage | gateway/FIXGateway.cpp:63-78 | a booked report is logged and applied to both projections; ignored reports change nothing |
| FIXGateways.Startup | src/main.cpp:52-69 | startup yields a gateway whose state is the replay of the file's durable events |
| Killswitches.OneRequestPerOpenOrder | gateway/Killswitch.h:82-105 | the n-th request is for the n-th open order: exactly one each and none for any other |
| Killswitches.CancelRequestsFit | gateway/Killswitch.h:82-105 | every open order is cancelled by one request with its own id, symbol and side, no two name the same order, and every request cancels an open order |
| Killswitches.CancelIdsDiffer | gateway/Killswitch.h:85-86 | the requests' own ids are pairwise different, and with a prefix like "KS" none is an order id |
| Killswitches.CancelAllClears | gateway/Killswitch.h:82-105 | cancels that answer the requests, in any order, leave no open order and no open exposure for any symbol, and finished orders untouched |
| Killswitches.OneOrderPerOpenPosition | gateway/Killswitch.h:109-144 | the n-th market order is for the n-th position that is not flat |
| Killswitches.FlattenOrdersFit | gateway/Killswitch.h:109-144 | every held position is closed by one order for its symbol, on the other side, for its quantity modulo 2^32 in the range of 32 bits, and every order closes one |
| Killswitches.FlattenIdsDiffer | gateway/Killswitch.h:119-131 | with a prefix of up to four characters no two flatten orders are stored under one id |
| Killswitches.CastExactIff | gateway/Killswitch.h:116-117 | the 32-bit cast keeps the quantity exactly when it is below 2^31 |
| Killswitches.CastWraps | gateway/Killswitch.h:116-117 | the cast is the value in the range of 32 bits that agrees modulo 2^32 |
| Killswitches.LeftAfterIff | gateway/Killswitch.h:116-117 | the flatten order closes the whole position exactly below 2^31 shares, nothing of it exactly when the cast quantity is not positive, and never turns it around |
| Killswitches.FlattenCloses | gateway/Killswitch.h:109-144 | any split and interleaving of the flatten fills reduces each position at its average with its drift unchanged, and leaves zero net, average and unrealized profit exactly if it was below 2^31 shares |
| OrderIds.ForeignIdDiffers | gateway/Killswitch.h:122-123 | an id with a prefix like "FL" is never stored as an order id, so no flatten order is taken for a sent one |
| Killswitches.KillSwitchLeavesNothing | gateway/Killswitch.h:82-144 | from every state of any gateway run, after cancels and flatten fills no order is open and finished orders are untouched; a position is zeroed, and a symbol's true exposure zero, exactly if it was below 2^31 shares, and otherwise is what the cast left |
| Killswitches.KillSwitchAgreementIff | gateway/Killswitch.h:109-144 | from agreement, each symbol is apart afterwards by the quantity flattened, so the projections agree exactly when no flatten order asked for a positive quantity |
| Killswitches.FlattenBreaksAgreement | gateway/Killswitch.h:122-137 | in every state of a gateway run, a fill of a flatten order is of an order the order table does not know and takes positions and orders apart |
| Killswitches.Killswitch.CancelAll | gateway/Killswitch.h:82-105 | the loop sends the requests for the open orders of the table |
| Killswitches.Killswitch.Flatten | gateway/Killswitch.h:109-144 | the loop sends the orders for the positions of the table |

## Left out

- QuickFIX sessions, sockets and printing: a send is the request value, an ExecutionReport is an input, `SessionNotFound` does not occur.
- Prices as doubles (`to_fixed`, `from_fixed`) and the `double` overload of `send_order`: reports carry fixed-point prices.
- mmap, file descriptors, clocks and power loss: the file is a header and an array, the time an argument, and a crash falls between stores.
- Weak memory: stores become visible in program order, as the release and acquire pair provides.
- Threads other than log readers: sends, reports and marks are steps of one writer, as the source requires of its callers.
- Display helpers, struct layout, benchmarks, signal handling and the time budget of `execute`.
- Cancel confirmations that carry the cancel request's own id instead of the order's: `Confirm` asks for the order's id, as the fixtures do (tests/fixtures/sample_msgs.h:98-119).
- GatewayLimitSafety: assumes fixed limits; `set_limits` during a run is modelled only as `RiskChecker.SetLimits`.
- NoOverflow: covers the position arithmetic; the product `qty * price` of the risk check is left unbounded.
- EventLogs.EventLog.Open: what a process does with a log whose file is short or whose header is beyond capacity (it reads outside the mapping) is not modelled; `Open` only says that such a log is not valid.
- FIXGateways.Startup: for the same reason, asks of a file with the right magic number that it is intact.
- The contents of slots past `count_` of the order table: the zero state and side bytes are no enumerators and are shown as `Zeroed` and `Buy`.
