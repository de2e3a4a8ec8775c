# Model and proofs of the trading platform's core

This project models the parts of the trading platform whose correctness depends
on long runs, concurrency or arithmetic over histories, and proves what they keep.
`dafny verify dfyconfig.toml` checks the whole project.

| file | what it models |
|---|---|
| `Json.dfy`, `JsonGrammar.dfy`, `JsonSound.dfy`, `JsonObjects.dfy` | the JSON value decoder behind the broker stream, the grammar of RFC 8259 (sections 2 to 7) as trees, that the two agree, and what each decoded value holds |
| `StreamFraming.dfy` | the incremental framing of concatenated JSON values over arbitrary chunks |
| `Tracker.dfy`, `TrackerMetrics.dfy` | the in-memory position tracker: lots, average cost, nav, peak, drawdown, the day's figure and the volatility guard |
| `Ledger.dfy`, `LedgerSafety.dfy`, `LedgerAccounts.dfy` | the fill ledger as a step system: one task per account stream, a program counter at every `await`, reconnects, replays, errors and restarts; what every interleaving keeps |
| `LedgerCosts.dfy`, `LedgerPath.dfy`, `LedgerBrackets.dfy` | the average cost in the positions table, the whole path of one fill that nothing interrupts, and which orders get a bracket |
| `CashFlow.dfy` | the router's daily figure against realised profit on average-cost holdings kept on their own |
| `TrackerCost.dfy`, `LedgerBooks.dfy` | the tracker's average cost against those holdings, and the tracker that a run of the ledger leaves |
| `Backtest002.dfy`, `Backtest002Laws.dfy`, `Backtest002Orders.dfy`, `Backtest002Repeats.dfy`, `Backtest002Fills.dfy` | the CSV backtest of strategy 002: its day loop, its books, no look-ahead, the fate of its pending orders, what repeated tickers do to them, and each day's exits, entries, stops, signals and equity said by the bars |
| `MultiSim.dfy`, `MultiSimLaws.dfy`, `MultiSimFills.dfy`, `Sim006.dfy`, `Sim006Fills.dfy` | the multi-strategy simulations of 002, 004 and 006, their loss bounds, and each day's or bar's entries and exits said by its prices |
| `Drawdown.dfy` | the one-pass drawdown against its quadratic definition |
| `Indicators.dfy`, `IndicatorLaws.dfy`, `Momentum.dfy`, `MomentumHistory.dfy` | buffers, means and Wilder's index, and the intraday momentum strategy, whose orders are also said by its past bars alone |
| `Swing.dfy`, `SwingLaws.dfy`, `SwingHistory.dfy` | the swing strategy, its protective-stop protocol with the broker, and its orders said by its past bars alone |
| `DayTrades.dfy`, `RateLimit.dfy` | the day-trade window and the tenant rate limiter |
| `TokenRefresh.dfy` | the credentials store and the double-checked token refresh |
| `Sums.dfy` | optional values, money, and sums over sequences and finite sets |

Objects the source updates in place are classes whose methods are proved against
a function of the old state; the laws are lemmas about those functions over whole
runs. Money, prices and quantities are exact reals, times are integers or reals.
Histories kept for the statements alone (`changed`, `brackets`, `lost`,
`unowned`, `trackerOnly`, `log`) are read by no step.

## Where the code does not do what one would expect

Each of these is a lemma with the exact condition or a concrete input.

- A bare number at the top level of the stream does not delimit itself: a chunk
  boundary inside it splits it in two. Consuming in two parts equals consuming at
  once if and only if no number is cut (`StreamFraming.ConsumeSplit`,
  `StreamFraming.BareNumberIsCut`).
- An error between recording a fill and settling it loses the fill for the
  positions table for good, because the replay finds the row and skips it
  (`LedgerAccounts.DroppedForGood`). A run whose errors, failed writes and restarts
  all miss the fills in flight is exact at rest (`LedgerAccounts.ExactWithoutDrops`);
  otherwise a position is off by exactly the fills they hit
  (`LedgerAccounts.ExactAtRest`, `LedgerAccounts.InexactAfterDrop`).
- The tracker keeps the old average cost when a fill carries a lot through zero. Its
  average is wrong exactly when the lot last opened by such a crossing at a price other
  than the old average (`TrackerCost.WrongExactlyWhenStale`); after buying 10 at 100 and
  selling 20 at 110 it says 100 for a short opened at 110
  (`TrackerCost.CrossingLeavesItStale`). The router's figure has no such fault: from
  flat to flat it is realised profit whatever was crossed (`CashFlow.FlatToFlat`).
- The peak of the net asset value starts again whenever it is zero, so it falls exactly
  when it is zero and the new value is negative (`TrackerMetrics.PeakFalls`).
- The fixed-window limiter admits up to `2 * limit - 1` requests in one window's
  length, and that bound is met (`RateLimit.IntervalBound`, `RateLimit.BoundIsMet`). The
  limit itself holds over every such length if and only if it is at most one
  (`RateLimit.LimitHoldsExactly`).
- Strategy 006 ends a session flat if and only if the session's last bar does not
  cross just one of its bands (`Sim006.FlatAtSessionEnd`).
- A token stored without an expiry is never refreshed again
  by a later caller (`TokenRefresh.NoExpiryNoRefresh`), and an audit write that fails
  after the token was stored makes the retry loop refresh again seconds later
  (`TokenRefresh.AuditFailureRefreshesAgain`). Refreshes are spaced if and only if each
  token so replaced was already about to expire (`TokenRefresh.SpacedExactly`).
- Asking before each day trade keeps every window at three if and only if no weekday
  reading of the clock is followed by an earlier weekday less than seven days before it
  (`DayTrades.SafeExactlyWhenSteady`); after three trades on day 11, a fourth dated day 7
  slips through (`DayTrades.ClockGoingBackBreaksIt`).
- The guards of the CSV backtest for orders that do not fit are dead on every run if and
  only if its tickers are distinct; a repeated ticker is scheduled twice
  (`Backtest002Repeats.DeadExactlyWhenDistinct`).
- The daily simulations mark a held symbol without a bar at nothing, so equity falls by
  its whole cost that day (`MultiSimLaws.EquityIsProfit002`, `MultiSimLaws.EquityIsProfit004`).
- A protective stop whose cancellation fails stays live for ever, since the strategy
  forgets its id before the call (`SwingLaws.ExactUnlessOrphaned`), and a position
  taken over at startup gets no stop, since it carries no entry price
  (`SwingLaws.OpenedIsCovered`, `SwingLaws.ExactlyOneStop`).
- Sizing a momentum entry by risk never binds: the notional cap always gives fewer
  shares (`Momentum.RiskNeverBinds`).
- The stop announced with a short entry is the one later sent to the broker only
  when the average true range is positive (`SwingLaws.BracketIsStop`).

## Model

| member | source | states |
|---|---|---|
| Ledger.ExecutionLogger.Log | src/execution/logger.py:73-105 | insert-if-absent: the row is added and reported inserted exactly when no row has its order id |
| Ledger.OrderTracker.CumulativeUpdate | src/execution/order_tracker.py:454-463 | the counter of the account and order grows by the leg and is the total passed on; without account or order id nothing is counted |
| Ledger.OrderTracker.ApplyRealtimeDbFill | src/execution/order_tracker.py:748-810 | the positions table after a fill: signed quantity, averaged cost on adds, row deleted at zero, nothing for a non-positive quantity or unknown side |
| LedgerSafety.StepKeeps | src/execution/order_tracker.py:384-447 | every step of every task (deliver, await, bracket request, its answer, error, failed write, restart) keeps the ledger invariant |
| LedgerSafety.RunKeeps | src/execution/order_tracker.py:284-382 | so does every interleaving of any number of account streams with any reconnects and replays |
| LedgerAccounts.AtMostOnce | src/execution/order_tracker.py:284-447 | in every run each order id changes the positions table at most once, and at most one bracket request goes out for it, counting requests whose answer never came; a dropped fill never reaches the table |
| LedgerAccounts.ChangesAreLogged | src/execution/order_tracker.py:707-746 | any change of the positions table is logged under exactly one order id, so the log above misses none |
| LedgerAccounts.StepBalance | src/execution/order_tracker.py:423-447 | no step changes positions row + fills in flight + dropped fills - recorded live fills |
| LedgerAccounts.LedgerConservation | src/execution/order_tracker.py:547-559 | from empty tables, in every run and for every account and symbol: positions row + in flight + dropped is the signed sum of non-snapshot fill rows, and a row exists exactly for a non-zero quantity |
| LedgerAccounts.LostIsDropped | src/execution/order_tracker.py:423-447 | the dropped fills of a run are those hit, between their record and their settle, by an error, a failed positions write or a restart, and there are none if and only if no step hits one |
| LedgerAccounts.ExactAtRest | src/execution/order_tracker.py:423-447 | with no task in flight the row is off the fill sum by exactly the fills those steps hit, and equals it if and only if they sum to zero |
| LedgerAccounts.ExactWithoutDrops | src/execution/order_tracker.py:423-447 | a run without such steps is exact at rest for every account and symbol |
| LedgerAccounts.InexactAfterDrop | src/execution/order_tracker.py:423-447 | when the fills hit are all on one side, the row is exact at rest if and only if none of them was a quantity of that account and symbol |
| LedgerAccounts.DroppedForGood | src/execution/order_tracker.py:411-439 | any complete live fill can be recorded and then dropped by an error; offered again it is refused and nothing moves |
| LedgerAccounts.TrackEffect | src/execution/order_tracker.py:725-744 | the tracker call of a first fill moves the account's lots of that symbol by the signed cumulative total, and nothing if the order has no orders row |
| LedgerAccounts.NoDrift | src/execution/order_tracker.py:707-746 | for non-negative quantities, over any run of one process, positions row less tracker lots changes only by fills without an orders row and by fills whose positions write failed after the tracker moved |
| LedgerAccounts.StepSides | src/execution/order_tracker.py:725-746 | a step adds to those two groups exactly the fill it settles without an orders row naming a strategy, and exactly the fill whose positions write it fails after the tracker moved |
| LedgerAccounts.DriftExactly | src/execution/order_tracker.py:707-746 | so the drift of a run is the sum of the fills its steps settled for the positions alone less those they settled for the tracker alone |
| LedgerAccounts.NeverDrifts | src/execution/order_tracker.py:707-746 | a run from an empty positions table without such steps keeps row and lots equal for every account and symbol |
| LedgerCosts.BuyAddsCost | src/execution/order_tracker.py:773-784 | a buy onto a long row with a known average: quantity times average grows by exactly quantity times price |
| LedgerCosts.BuySetsCost | src/execution/order_tracker.py:773-784 | a buy from flat or short, or onto a long row without an average, leaves the fill's price, and no row at zero |
| LedgerCosts.SellKeepsCost | src/execution/order_tracker.py:785-810 | a sell keeps a known average and sets the fill's price where there was none, and leaves no row at zero |
| LedgerCosts.OtherPlaces | src/execution/order_tracker.py:748-810 | no fill touches another account or symbol, and one without quantity touches nothing |
| LedgerCosts.BoughtAtCost | src/execution/order_tracker.py:748-810 | over every run from empty tables, a place whose settled fills only bought has average cost times quantity equal to the sum of price times quantity of those fills, and a row exactly when it holds something |
| LedgerPath.FuturesExactly | src/execution/order_tracker.py:102-119 | a symbol is a futures symbol if and only if, after its leading @, one of four roots starts it |
| LedgerPath.OnlyAStatus | src/execution/order_tracker.py:321-452 | an event that is no fill to be stored sets the status of its order's row, "rejected" for a rejection, and nothing else |
| LedgerPath.LiveFill | src/execution/order_tracker.py:384-447 | what a live fill that nothing interrupts does, from the event to rest: its row, its order's status, its count, its position and lot by the signed quantity, and a bracket request if and only if its order is a stored strategy 006 order, filled, in futures, with an account, and no leg of a bracket |
| LedgerPath.ReplayedFill | src/execution/order_tracker.py:333-347 | a replayed fill not yet known is stored as such, its order's status set, and nothing else moves |
| LedgerPath.FillIgnored | src/execution/order_tracker.py:333-431 | a fill that is not ours, already known, or without price or quantity moves nothing |
| LedgerPath.LegsAreRemembered | src/execution/order_tracker.py:561-690 | the legs of an accepted bracket, and of no other, are remembered, and no fill of theirs gets a bracket |
| LedgerPath.RestartForgets | src/execution/order_tracker.py:225-243 | a restart keeps the tables and forgets counters, tracker, bracket legs and tasks |
| LedgerPath.TotalsAreSums | src/execution/order_tracker.py:454-463 | after any legs of any orders, the total passed on is the sum of the legs of that account and order |
| LedgerBrackets.BracketsBelong | src/execution/order_tracker.py:441-447 | in every interleaving, with errors and restarts, each bracket request is for a stored order of strategy 006 with a live futures fill and an account |
| Tracker.PositionTracker.ApplyFillFor | src/execution/tracker.py:104-143 | the key's whole new state after a cumulative update, and that an incomplete key raises and changes nothing |
| Tracker.PositionTracker.SetCashFor | src/execution/tracker.py:55-58 | cash set and metrics recomputed for that key only |
| Tracker.PositionTracker.SetMarkPrice | src/execution/tracker.py:73-86 | mark set and metrics recomputed for that key only |
| Tracker.RecalcMetrics | src/execution/tracker.py:194-204 | the loop over lots gives nav as cash plus the sum of marked lots, in whatever order they are met, and raises the peak |
| Tracker.FillMoves | src/execution/tracker.py:117-143 | a cumulative update moves its own lot by the signed increase over the order's previous total, records the new total, and leaves every other lot and order alone |
| Tracker.ReplayEquivalence | src/execution/tracker.py:104-143 | after any sequence of cumulative updates (repeats, regressions, interleaved orders) each lot is the signed sum of each order's last total |
| Tracker.HistoryIndependent | src/execution/tracker.py:117-143 | two update histories that end on the same totals leave the same lots |
| Tracker.AvgCostWithinPrices | src/execution/tracker.py:127-142 | after any run a lot's average cost lies within any bounds that hold all its fill prices |
| Tracker.NavAlwaysConsistent | src/execution/tracker.py:194-204 | after every operation of any run nav is cash plus marked lots and no more than the peak |
| Tracker.DrawdownNeverPositive | src/execution/tracker.py:207-210 | drawdown is never positive in any run |
| TrackerMetrics.NavByOperation | src/execution/tracker.py:194-200 | in every run nav starts at zero and each operation moves it by exactly the change of cash, the lot's quantity times the change of its price, or the filled quantity times the lot's price |
| TrackerMetrics.PeakMoves | src/execution/tracker.py:201-204 | only an operation that recomputes moves the peak, to the new nav when it was zero and to the higher of the two otherwise |
| TrackerMetrics.PeakFalls | src/execution/tracker.py:201-204 | the peak falls if and only if it is zero and the new nav is negative |
| TrackerMetrics.PeakIsHighest | src/execution/tracker.py:201-204 | in every run, from any moment at which the peak is positive, it is the highest of that peak and every nav since |
| TrackerMetrics.DailyMoves | src/execution/tracker.py:188-192 | the day's figure starts again with the first recomputation or reading of another day, and otherwise changes by its own operation alone |
| TrackerMetrics.GuardMoves | src/execution/tracker.py:91-102 | the guard opens at or under the lower bound, closes above the upper one and is left alone between them, by its own operation alone |
| TrackerMetrics.DrawdownIs | src/execution/tracker.py:207-210 | drawdown times a positive peak is nav less peak, and drawdown is zero without one |
| CashFlow.HoldingIdentity | src/execution/router.py:51-57 | one fill, whatever it crosses: its cash plus what it adds to the cost of the holding is the gain on the shares it closes |
| CashFlow.CashFlowIdentity | src/execution/router.py:51-79 | for every table of fill rows in any order: the router's day figure plus what the day's fills added to the cost of the holdings is the profit they realised, and the figure is that profit if and only if that sum is zero |
| CashFlow.MovedIsChange | src/execution/router.py:51-79 | when the table holds the day's rows after all earlier ones, what they added is the change in average cost times quantity |
| CashFlow.FlatToFlat | src/execution/router.py:51-79 | then, from flat to flat, the router's figure is exactly the realised profit of the day, whatever its fills crossed |
| CashFlow.RouterAdds | src/execution/router.py:51-79 | one more row adds its signed price times quantity if and only if it is live, joined to a stored order of the strategy and not before the start of the day |
| TrackerCost.FillMatches | src/execution/tracker.py:127-142 | one fill moves the tracker's lot and the average-cost holding by the same quantity; a right average goes wrong exactly when the fill crosses zero away from it, and a wrong one stays wrong until the lot is flat or crosses again |
| TrackerCost.WrongExactlyWhenStale | src/execution/tracker.py:117-143 | over every history of fills on their orders' sides: equal quantities always, and while a lot is open its average is wrong if and only if it last opened by crossing zero at another price |
| TrackerCost.NeverStale | src/execution/tracker.py:127-142 | a history whose fills never cross zero leaves no lot stale |
| TrackerCost.CostAgrees | src/execution/tracker.py:127-142 | a lot's average cost times quantity is the holding's if and only if the lot is flat or not stale |
| TrackerCost.TrackerIdentity | src/execution/tracker.py:127-142 | for every history, over all accounts: the router's figure plus the change in the tracker's average cost times quantity, less realised profit, is the change in the gaps of the stale open lots, which is zero when none is stale at either end |
| TrackerCost.CrossingLeavesItStale | src/execution/tracker.py:127-142 | three fills from flat to flat that make 150, which is the router's figure, and 50 at the tracker's averages |
| LedgerBooks.TrackerIsBooks | src/execution/order_tracker.py:707-746 | at rest, after any interleaving in which an account's events come from its own stream, orders are stored before their fills and errors miss the fills in flight, the tracker holds for an account and strategy exactly what settling the account's recorded fills in table order gives |
| LedgerBooks.RunWrongExactlyWhenStale | src/execution/order_tracker.py:707-746 | so after such a run every lot has the quantity of the average-cost holding and its average is wrong exactly when it is stale |
| Json.ValueStable | src/brokers/tradestation/adapter.py:682-691 | a value read from a buffer is read the same when text is appended, except a number not yet ended |
| JsonGrammar.DocRead | src/brokers/tradestation/adapter.py:682-691 | the decoder inverts the printer for every grammatical tree: any whitespace, string escapes, surrogate pairs, number forms, nesting, repeated keys |
| JsonSound.ValueSound | src/brokers/tradestation/adapter.py:682-691 | every text the decoder accepts is a printed grammatical tree, and the value returned is its meaning |
| JsonSound.AcceptsExactlyTheGrammar | src/brokers/tradestation/adapter.py:682-691 | numbers aside, the decoder returns a value and end position if and only if a tree with that meaning is printed there |
| JsonObjects.DictLastWins | src/brokers/tradestation/adapter.py:682-691 | a decoded object holds a key if and only if some pair has it, with the value of the last that does, by index |
| JsonObjects.ObjectEntries | src/brokers/tradestation/adapter.py:682-691 | reading a printed object gives an object with exactly the keys and last values of its members |
| JsonObjects.DecodesToDenoted | src/brokers/tradestation/adapter.py:682-691 | a printed tree is read as a value if and only if the value denotes it, by rules that name no decoder function for objects and arrays: items in order, keys and last values |
| JsonObjects.DenotesOne | src/brokers/tradestation/adapter.py:682-691 | a tree is denoted by one value alone |
| JsonObjects.StreamDenotes | src/brokers/tradestation/adapter.py:651-692 | a printed list of objects, however cut, comes back as values that denote those objects one by one, leaving the trailing whitespace |
| JsonObjects.Alphabet | src/brokers/tradestation/adapter.py:682-691 | the white space, digits, signs and structural characters, by their code points |
| JsonObjects.Words | src/brokers/tradestation/adapter.py:682-691 | the words the decoder knows, letter by letter |
| JsonObjects.Escapes | src/brokers/tradestation/adapter.py:682-691 | the eight short escapes and their code points, and no others |
| JsonObjects.HexPlaces | src/brokers/tradestation/adapter.py:682-691 | each hex digit is worth its place in 0 to f, in either case |
| JsonObjects.HexOnly | src/brokers/tradestation/adapter.py:682-691 | no other character is a hex digit |
| JsonObjects.FourDigits | src/brokers/tradestation/adapter.py:682-691 | four hex digits are a number in base sixteen, most significant first |
| JsonObjects.JoinOfSplit | src/brokers/tradestation/adapter.py:682-691 | joining two surrogates inverts the UTF-16 split of a character |
| JsonObjects.SplitOfJoin | src/brokers/tradestation/adapter.py:682-691 | and every joined pair splits back into its two surrogates |
| StreamFraming.ConsumeJsonObjects | src/brokers/tradestation/adapter.py:675-692 | the loop terminates and returns the values and remainder of the recursive definition for every buffer |
| StreamFraming.IterStreamObjects | src/brokers/tradestation/adapter.py:651-658 | over any chunks exactly the dictionaries among the values consumed are yielded, in order |
| StreamFraming.ConsumeSplit | src/brokers/tradestation/adapter.py:675-692 | consuming a, then the remainder followed by b, equals consuming a + b if and only if no bare number is cut between them |
| StreamFraming.Drained | src/brokers/tradestation/adapter.py:678-692 | the remainder holds no further complete value |
| StreamFraming.ChunkInvariance | src/brokers/tradestation/adapter.py:651-658 | however a stream without bare top-level numbers is cut, values and remainder are those of the whole text |
| JsonObjects.DictsAreObjects | src/brokers/tradestation/adapter.py:651-658 | what is yielded holds every object as often as it was read, and nothing else |
| StreamFraming.RoundTrip | src/brokers/tradestation/adapter.py:651-692 | any list of JSON objects printed with any whitespace and spelling, in any chunks, comes back as exactly that list, leaving only the trailing whitespace |
| StreamFraming.ConsumedIsPrinted | src/brokers/tradestation/adapter.py:675-692 | for every buffer, the values read and the remainder account for all of its text: nothing is invented, lost or reordered |
| StreamFraming.BareNumberIsCut | src/brokers/tradestation/adapter.py:675-692 | the stream 12 cut in two chunks is read as 1 and 2 |
| TokenRefresh.BrokerCredentialsStore.UpsertTokens | src/services/broker_credentials_store.py:32-69 | the row after an upsert; an empty refresh token keeps the old one |
| TokenRefresh.BrokerCredentialsStore.GetAuthToken | src/services/broker_credentials_store.py:102-170 | the answer is the account's own row, else the default account's, else a newest row of the same tenant, mode and broker; none only when no such row has a token |
| TokenRefresh.LookupOrder | src/services/broker_credentials_store.py:102-170 | which row a lookup may answer with, spelled out: the account's own token, else the default account's, else a newest one of the same tenant, mode and broker |
| TokenRefresh.ReadYourWrite | src/services/broker_credentials_store.py:32-170 | after an upsert the only answer for that key is the token written, its time of writing is now, and no other row is touched |
| TokenRefresh.OneAtATime | src/brokers/tradestation/adapter.py:323-358 | in every interleaving, whatever fails, at most the lock's holder is refreshing |
| TokenRefresh.NoStampede | src/brokers/tradestation/adapter.py:323-358 | in every run, whatever fails, each refresh was decided under the lock on a stored token within ten minutes of expiry, and two successive writes of different acquisitions are at least the first token's lifetime less ten minutes apart |
| TokenRefresh.AnswersAreServed | src/brokers/tradestation/adapter.py:323-358 | in every run whoever is answered gets a token that a row serving the session holds after that step; one that did not refresh gets a token that needed none then, and one that did gets the token it was issued |
| TokenRefresh.FirstReadDecides | src/brokers/tradestation/adapter.py:323-345 | the first read answers exactly when the token needs no refresh, and queues for the lock otherwise |
| TokenRefresh.AcquireDecides | src/brokers/tradestation/adapter.py:346-358 | under the lock the token is read again, and refreshed exactly when it is still due |
| TokenRefresh.GivesUpAfterThree | src/brokers/tradestation/adapter.py:287-321 | three failed attempts, with sleeps of two, four and eight seconds, then the error goes up and the lock is free |
| TokenRefresh.SpacedExactly | src/brokers/tradestation/adapter.py:289-358 | in every run all writes are so spaced if and only if each write that the same acquisition followed with another had stored a token already within ten minutes of expiry when the refresh was decided |
| TokenRefresh.RetriesNeedFailedAudits | src/brokers/tradestation/adapter.py:289-321 | a second write of one acquisition takes an audit write that failed; without one the writes are spaced |
| TokenRefresh.FewRefreshes | src/brokers/tradestation/adapter.py:287-358 | while writes are spaced the n-th success after another comes at least n times (lifetime less ten minutes) later |
| TokenRefresh.NoExpiryNoRefresh | src/brokers/tradestation/adapter.py:338-357 | in every run only the same acquisition writes again after a token stored without an expiry |
| TokenRefresh.AuditFailureRefreshesAgain | src/brokers/tradestation/adapter.py:289-321 | when the audit write of a first or second attempt fails after the store, the caller writes again after its sleep of two or four seconds; the spacing survives exactly when the first new token was already near expiry |
| Backtest002.RunBacktest | scripts/backtest_002_localcsv.py:80-238 | the day loop's final cash, holdings, trades, pending orders and equity curve as functions of the price histories |
| Backtest002.ExitsAtOpen | scripts/backtest_002_localcsv.py:150-167 | the pending-exit loop at the open |
| Backtest002.EntriesAtOpen | scripts/backtest_002_localcsv.py:170-193 | the pending-entry loop with its position limit, sizing and cash check |
| Backtest002.IntradayStops | scripts/backtest_002_localcsv.py:196-212 | the stop loop over a snapshot of the positions |
| Backtest002.SignalsAtClose | scripts/backtest_002_localcsv.py:215-223 | which orders the close schedules, and for which day |
| Backtest002.MarkToMarket | scripts/backtest_002_localcsv.py:226-234 | equity at the close, with the series' last close for a ticker without a bar |
| Backtest002Laws.BooksBalance | scripts/backtest_002_localcsv.py:128-212 | at the end of every day of every run cash plus open shares at entry price is the capital plus the profit of closed trades, with at most two positions in different tickers |
| Backtest002Laws.AlwaysSolvent | scripts/backtest_002_localcsv.py:170-193 | with opens that are not negative, at the end of every day cash is not below -1e-6 and every position is a positive number of shares |
| Backtest002Laws.InOrderThroughout | scripts/backtest_002_localcsv.py:149-212 | the same, and the balance of the books, after every single exit, entry and stop of every day |
| Backtest002Laws.NoLookAhead | scripts/backtest_002_localcsv.py:103-223 | two price histories with one calendar that agree up to day d give the same cash, holdings, trades and pending orders through day d |
| Backtest002Orders.RunFits | scripts/backtest_002_localcsv.py:121-223 | at the end of every run, for any list of tickers, the pending exits are for held tickers and the pending entries for flat ones, each due at that ticker's next bar |
| Backtest002Orders.OnlyRepeatsSkip | scripts/backtest_002_localcsv.py:150-180 | in every run, for any list of tickers, a due exit finds its ticker held if and only if the same list did not have it before, a due entry finds it flat unless the list had it before, and both trade that day |
| Backtest002Orders.SkipsAreDead | scripts/backtest_002_localcsv.py:150-180 | so with distinct tickers a due exit finds its ticker held and a due entry finds it flat in every run |
| Backtest002Repeats.DeadExactlyWhenDistinct | scripts/backtest_002_localcsv.py:150-223 | the guards take effect in no run of a list of tickers if and only if the list has no repeats |
| Backtest002Repeats.RepeatSkips | scripts/backtest_002_localcsv.py:170-223 | for any list with a repeat, a price history in which its one buy signal is scheduled twice and the second entry finds the ticker held |
| Backtest002Orders.ScheduledExitFills | scripts/backtest_002_localcsv.py:121-167 | a held ticker that signals a sell is still held, in the same position, on its next trading day and is closed at that day's open |
| Backtest002Fills.ExitsExactly | scripts/backtest_002_localcsv.py:150-167 | on every day of every run, exit by exit: a held ticker with a bar is sold whole at that bar's open, and any other exit does nothing |
| Backtest002Fills.EntriesExactly | scripts/backtest_002_localcsv.py:170-193 | entry by entry: it fills if and only if its ticker is flat, fewer than two positions are open, the bar's open is positive, the cap buys a whole share and cash covers the most it buys; it then buys exactly that many |
| Backtest002Fills.EveryoneBought | scripts/backtest_002_localcsv.py:178-193 | every position of every run was bought at the open of its entry day, for as many shares as the cap buys, with its stop at 0.92 of entry |
| Backtest002Fills.StopsExactly | scripts/backtest_002_localcsv.py:196-212 | from the day's entries to its end: the positions whose bar did not reach 0.92 of entry are kept untouched in order, and each other one makes one trade at 0.92 of entry, in order; nothing else is traded |
| Backtest002Fills.StopFires | scripts/backtest_002_localcsv.py:196-212 | a position open after the day's entries is closed that day if and only if its ticker has a bar with low at or under 0.92 of entry, by exactly one trade at that price, and is otherwise still held unchanged |
| Backtest002Fills.ScheduledExactly | scripts/backtest_002_localcsv.py:103-223 | to each later day the close adds, in order, exactly the held tickers under their twenty-day mean and the flat tickers that pass the three buy conditions whose next bar is of that day |
| Backtest002Fills.EquityExactly | scripts/backtest_002_localcsv.py:226-234 | the equity of each day is the capital plus the profit of closed trades plus the gains of the open shares at the day's close, or at the file's last close without a bar |
| Backtest002Fills.MarksExist | scripts/backtest_002_localcsv.py:226-234 | every position a run holds has such a mark on every day |
| Drawdown.FastIsQuadratic | scripts/backtest_002_localcsv.py:64-70 | on positive levels the running-peak drawdown is the minimum of level i over level j less one over all j <= i, attained, and in (-1, 0] |
| Drawdown.MetricsDrawdown | src/backtesting/engine.py:133-136 | the same for the compounded returns of the metrics, for returns above -1 |
| Drawdown.NoDrawdown | src/backtesting/engine.py:133-136 | the drawdown is zero if and only if the series never falls |
| Drawdown.Compounds | src/backtesting/engine.py:133-136 | each compounded level is the one before it, or one, times one plus its return |
| MultiSim.EnterPending | src/backtesting/strategy_multi_sim.py:97-127 | the entry loop with its early break, gate, sizing against open value and cash check |
| MultiSim.StopPass | src/backtesting/strategy_multi_sim.py:130-143 | the intraday stop pass of 002 |
| MultiSim.ClosePass | src/backtesting/strategy_multi_sim.py:146-176 | the time and cross exits of 002 |
| MultiSim.ExitPass004 | src/backtesting/strategy_multi_sim.py:281-304 | the stop, target and time exits of 004 |
| MultiSim.MarkToMarket | src/backtesting/strategy_multi_sim.py:178-184 | cash plus open positions at the day's closes, a symbol without a bar counting nothing |
| MultiSim.RunStrategy002 | src/backtesting/strategy_multi_sim.py:87-196 | the whole day loop of 002, its marked equity curve included |
| MultiSim.RunStrategy004 | src/backtesting/strategy_multi_sim.py:248-348 | the whole day loop of 004, its marked equity curve included |
| MultiSimLaws.Conserved002 | src/backtesting/strategy_multi_sim.py:87-196 | on every day of every run cash plus open shares at entry price is the capital plus realised profit |
| MultiSimLaws.Conserved004 | src/backtesting/strategy_multi_sim.py:248-348 | the same for 004 |
| MultiSimLaws.EquityIsProfit002 | src/backtesting/strategy_multi_sim.py:178-184 | on every day of every run the marked equity is the capital plus realised profit plus the gains of the open positions, less the whole cost of those without a bar |
| MultiSimLaws.EquityIsProfit004 | src/backtesting/strategy_multi_sim.py:306-311 | the same for 004 |
| MultiSimLaws.BoundedLoss002 | src/backtesting/strategy_multi_sim.py:129-176 | on bars with 0 <= low <= close <= high every trade of 002 exits at no less than 0.92 of entry; cash stays above -1e-6; at most the allowed number of distinct symbols is held |
| MultiSimLaws.BoundedLoss004 | src/backtesting/strategy_multi_sim.py:281-304 | every trade of 004 exits within [0.96, 1.08] of entry, with the same solvency |
| MultiSimLaws.RealisedBounds | src/backtesting/strategy_multi_sim.py:129-304 | total realised profit is bounded by those fractions of the summed entry values |
| MultiSimLaws.TimeExit002 | src/backtesting/strategy_multi_sim.py:153-176 | a held symbol with a bar on the last day is younger than twenty sessions |
| MultiSimLaws.TimeExit004 | src/backtesting/strategy_multi_sim.py:281-304 | a held symbol with a bar on the last day is younger than ten sessions |
| MultiSimFills.ClosedExactly004 | src/backtesting/strategy_multi_sim.py:281-304 | every position of 004 open after a day's entries, on every run: low at or under 0.96 of entry closes it at 0.96 whatever the high, else high at or above 1.08 closes it at 1.08, else ten sessions at the close, else, or without a bar, it is kept; each once, and nothing else |
| MultiSimFills.ClosedExactly002 | src/backtesting/strategy_multi_sim.py:129-176 | the same for 002: the stop at 0.92 of entry, else twenty sessions or a cross under the mean at the close, else kept |
| MultiSimFills.EntriesExactly002 | src/backtesting/strategy_multi_sim.py:97-127 | symbol by symbol: an entry fills if and only if yesterday's volatility is known and at most 28, a place is free, the symbol is flat with a positive open, and the most whole shares that fit the slot and the unused capital are at least one and covered by cash; it then buys that many |
| MultiSimFills.EntriesExactly004 | src/backtesting/strategy_multi_sim.py:252-279 | the same for 004, without the gate |
| MultiSimFills.PendingExactly002 | src/backtesting/strategy_multi_sim.py:185-196 | the close leaves pending exactly the flat symbols that signal on a calm day, in order, and nothing after the last day |
| MultiSimFills.PendingExactly004 | src/backtesting/strategy_multi_sim.py:313-348 | the same for 004: from the third day on, uptrend, reclaimed mean, volume, and a pullback of at most one percent one or two days before |
| MultiSimFills.Distinct002 | src/backtesting/strategy_multi_sim.py:97-176 | in every run no symbol is held twice and the trade count is two per closed position and one per open one |
| Sim006.SimOne | src/backtesting/strategy_multi_sim.py:422-530 | the bar loop of 006: final position, realised profit, round trips and marked curve |
| Sim006.BoundedTrips | src/backtesting/strategy_multi_sim.py:484-511 | in any run longs exit within [0.995, 1.0075] of entry and shorts within [0.9925, 1.005]; realised profit is the multiplier times the sum of the trips' gains |
| Sim006.RealisedBounds | src/backtesting/strategy_multi_sim.py:484-511 | realised profit lies within -0.5% and +0.75% of the summed entries times the multiplier |
| Sim006.FlatAtSessionEnd | src/backtesting/strategy_multi_sim.py:482-519 | after a session's last bar the position is flat if and only if that bar signals neither or both directions |
| Sim006Fills.BarExactly | src/backtesting/strategy_multi_sim.py:450-519 | every bar of every run: a position leaves if and only if the bar reaches its stop, else its target, else ends the session, as one round trip at that price worth its points times the multiplier; a flat contract then takes the side of the one band the bar breaks, at its close |
| Sim006Fills.CurveExactly | src/backtesting/strategy_multi_sim.py:521-527 | each point of the curve is what is realised plus the open points at the close times the multiplier |
| Sim006.NotFlatAtSessionEnd | src/backtesting/strategy_multi_sim.py:492-519 | two bars that end a session with a position |
| Indicators.WilderRsi | src/strategies/momentum.py:27-46 | the four loops compute the recursively smoothed averages and their index |
| Indicators.RsiRange | src/strategies/momentum.py:38-46 | the index lies in [0, 100] and is 100 exactly when the smoothed loss is zero |
| Indicators.NoLossNoFall | src/strategies/momentum.py:33-45 | the smoothed loss is zero exactly when no close is below the one before it |
| IndicatorLaws.PushKeepsLatest | src/strategies/momentum.py:80-85 | a buffer that took every entry holds the last 260 of them |
| IndicatorLaws.MeanIs | src/strategies/momentum.py:87-97 | a mean needs n entries, and times n is the sum of the last n |
| IndicatorLaws.WilderExactly | src/strategies/momentum.py:37-42 | times the period, the first average is the sum of the first rises and each later one is the one before it, once less, plus its rise; the same for falls |
| IndicatorLaws.RsiExactly | src/strategies/momentum.py:43-46 | the index times gains plus losses is a hundred times the gains, and a hundred without losses |
| IndicatorLaws.MirrorRsi | src/strategies/momentum.py:27-46 | prices mirrored so that rises become falls have the complementary index |
| Momentum.EquityMomentumStrategy.OpenPositionCount | src/strategies/momentum.py:112-113 | the number of symbols held |
| Momentum.EquityMomentumStrategy.HandleBar | src/strategies/momentum.py:115-240 | signal and whole new state for every bar, listed or not, stamped or not |
| Momentum.EquityMomentumStrategy.CheckExits | src/strategies/momentum.py:151-201 | each return of the exit ladder in the source's order: session end, stop, mean, target, trail |
| Momentum.SymbolLaws | src/strategies/momentum.py:149-246 | in every run, per symbol: buys and sells alternate with equal positive quantities and net to the position; while held the stored high is the maximum close since entry and the trail is armed exactly when it reached 1.02 of entry; flat legs remember nothing |
| Momentum.SoldExactly | src/strategies/momentum.py:152-201 | a held leg is sold if and only if the session is at its end, the target is met, the close is below its mean, or the bar touches the effective stop |
| Momentum.BoughtExactly | src/strategies/momentum.py:203-240 | a flat leg is bought if and only if every entry condition holds and the close lies in (0, 25000] |
| Momentum.StopNeverFalls | src/strategies/momentum.py:164-201 | in every run the effective stop of a symbol that stays held never falls |
| Momentum.FlatAfterClose | src/strategies/momentum.py:155-162 | in every run a stamped bar at or after 15:55 leaves its symbol flat |
| Momentum.AtMostTwo | src/strategies/momentum.py:112-113 | in every run at most two symbols are held |
| Momentum.SizeIsCapped | src/strategies/momentum.py:221-228 | an entry risks at most 500 dollars and commits at most 25000 |
| Momentum.RiskNeverBinds | src/strategies/momentum.py:221-228 | the notional cap always decides the size: the share count is the floor of 25000 over the close, and an entry is possible if and only if the close is at most 25000 |
| MomentumHistory.RunRemembers | src/strategies/momentum.py:115-147 | in every run a symbol's buffers hold its last 260 stamped bars, its previous high that of the last one, and its session totals the volume and money of the bars since the last change of date |
| MomentumHistory.BoughtByTheBars | src/strategies/momentum.py:203-240 | after any run a bar of a flat symbol buys if and only if its past bars say so: hours, room, close over the previous high and the session's mean price, volume surge, index over 55; it then buys as many whole shares as 25000 buys |
| MomentumHistory.SoldByTheBars | src/strategies/momentum.py:151-201 | after any run a bar of a held symbol sells if and only if the bars since its entry say so, the entry being the first close since and the trail one percent under the highest close once that reached 1.02 of entry |
| Swing.ComputeAtr | src/strategies/swing_pullback.py:194-205 | the loop gives the mean of the last fourteen true ranges, zero before there are that many |
| Swing.AtrNotNegative | src/strategies/swing_pullback.py:194-205 | the average true range is never negative |
| Swing.NearestInteger | src/strategies/swing_pullback.py:412 | quantizing gives n if and only if n is within one half, and even when two are |
| Swing.EquitySwingStrategy.HandleBar | src/strategies/swing_pullback.py:262-469 | outcome and whole new state for every bar, long and short, including the division by a zero close |
| Swing.EquitySwingStrategy.CheckExit | src/strategies/swing_pullback.py:307-365 | stop, target and time exits of a long and a short |
| Swing.EquitySwingStrategy.CheckEntry | src/strategies/swing_pullback.py:367-469 | entry filters in the source's order, sizing, bracket |
| Swing.EquitySwingStrategy.AfterBar | src/strategies/swing_pullback.py:471-533 | legs, recorded stops and the broker's live orders after the stop check |
| Swing.EquitySwingStrategy.UpdatePosition | src/strategies/swing_pullback.py:171-178 | a position taken over at startup becomes one share of its side, without an entry |
| SwingLaws.TakeoversStartUp | src/strategies/swing_pullback.py:171-178 | any list of positions taken over before the first bar is a start from which the run theorems hold |
| SwingLaws.ProtectionHolds | src/strategies/swing_pullback.py:305-538 | in every run of bars and stop checks, with any broker failures: each recorded stop is live and is its open leg's stop, and each live order is a recorded stop or one whose cancellation failed |
| SwingLaws.OpenedIsCovered | src/strategies/swing_pullback.py:482-533 | a recorded stop means an opened symbol, and an opened symbol lacks its stop only when its last placement was refused |
| SwingLaws.ExactlyOneStop | src/strategies/swing_pullback.py:482-533 | when every broker call succeeds the live orders are exactly one stop per strategy-opened symbol, for its whole position; a flat symbol has none; at most two live |
| SwingLaws.ExactUnlessOrphaned | src/strategies/swing_pullback.py:471-480 | live orders are the recorded stops plus the orphans; they are the recorded stops alone if and only if no cancellation failed |
| SwingLaws.StopOrderFits | src/strategies/swing_pullback.py:498-522 | the order is on the opposite side, for the absolute position, within half a cent of the rule from stored entry and range, and the rule is below a long's entry and above a short's |
| SwingLaws.BracketIsStop | src/strategies/swing_pullback.py:405-467 | the stop announced at entry is the one placed later if and only if the entry is long or the range positive |
| SwingLaws.ClearedExactly | src/strategies/swing_pullback.py:307-365 | in every run a usable bar clears an opened symbol if and only if it closes at or beyond the protective stop, reaches the target, or comes twenty days after entry; then its stop goes, otherwise position and stop stay |
| SwingLaws.EnteredExactly | src/strategies/swing_pullback.py:367-469 | a usable bar with a positive close opens a flat symbol long if and only if the long setup and the volatility index allow it, short if and only if shorts are on and the short setup holds (never both), given 200 closes, room, and a close below 60000 |
| SwingLaws.AtMostTwo | src/strategies/swing_pullback.py:253-254 | in every run at most two positions opened by the strategy, whatever was taken over at startup |
| SwingLaws.SignalsNetToPosition | src/strategies/swing_pullback.py:329-467 | in every run a symbol's position is what was taken over plus the net of its signals |
| SwingLaws.SharesNearCap | src/strategies/swing_pullback.py:412-414 | an entry has a positive close and commits the notional cap to within half a share |
| SwingHistory.TakenOverExactly | src/strategies/swing_pullback.py:171-178 | the last takeover of a symbol leaves one share of its side, and nothing without a side |
| SwingHistory.RunRemembers | src/strategies/swing_pullback.py:180-293 | after any takeovers and any run a symbol's buffers hold its last 260 bars |
| SwingHistory.AtrIs | src/strategies/swing_pullback.py:194-205 | fourteen times the average range is the sum of the last fourteen ranges, each the widest of the bar's own range and its reaches from the close before |
| SwingHistory.LevelsAre | src/strategies/swing_pullback.py:313-351 | stop and target are two and four ranges from entry, on the right sides, or four and eight percent without a range |
| SwingHistory.SetupsAre | src/strategies/swing_pullback.py:207-249 | the long and short setups as conditions on sums of the symbol's own past closes, highs and volumes |
| SwingHistory.BarByTheBars | src/strategies/swing_pullback.py:262-469 | after any takeovers and any run, what a bar does to its symbol, said by the bars alone: nothing before fifty of them or without a date; a held leg cleared exactly when the bar ends it; a flat one opened exactly on the long or short setup with room, for the shares nearest to 30000, noting close, day and range |
| SwingHistory.BarAnnounces | src/strategies/swing_pullback.py:329-467 | in every run the order that goes with a move: buy or short sale of the new position with its stop and target, sale or cover of the whole old one, none when it stays, or the division by a zero close |
| DayTrades.RollingBusinessDates | src/execution/intraday_manager.py:49-58 | the loop terminates with exactly the latest weekdays, newest first; five of them are the weekdays of the last seven days |
| DayTrades.IntradayPositionManager.RecordDayTrade | src/execution/intraday_manager.py:82-99 | one row is appended |
| DayTrades.IntradayPositionManager.DayTradeCount | src/execution/intraday_manager.py:101-116 | the rows of the tenant and mode inside the five-weekday window are counted |
| DayTrades.IntradayPositionManager.CanDayTrade | src/execution/intraday_manager.py:118-122 | allowed exactly when the rule is off or fewer than three trades are in the window |
| DayTrades.IntradayPositionManager.GetRemainingDayTrades | src/execution/intraday_manager.py:124-129 | three less the count, never negative, and positive exactly while a trade is allowed |
| DayTrades.CountExactly | src/execution/intraday_manager.py:101-116 | the count is the number of log places with that tenant and mode dated on a weekday of the last seven days |
| DayTrades.AtMostThree | src/execution/intraday_manager.py:82-122 | if the tenant's weekday trades are recorded only when allowed and none is dated less than a week before an earlier one, any five consecutive weekdays hold at most three; other tenants' rows, weekend rows and longer jumps do not matter |
| DayTrades.SafeExactlyWhenSteady | src/execution/intraday_manager.py:82-122 | for every sequence of clock readings: whatever is logged on it after asking keeps every window at three, if and only if no weekday reading is followed by an earlier weekday less than seven days before it |
| DayTrades.ClockGoingBackBreaksIt | src/execution/intraday_manager.py:82-122 | for one, the readings 11 and 7 put four trades in one window |
| RateLimit.FixedWindowTenantRateLimiter.Allow | src/tenancy/rate_limit.py:21-32 | the answer and the tenant's new bucket, others untouched |
| RateLimit.IntervalBound | src/tenancy/rate_limit.py:21-32 | with a non-decreasing clock any half-open interval of the window's length holds at most 2 * limit - 1 allowed requests of a tenant, and the current counter window at most limit |
| RateLimit.BoundIsMet | src/tenancy/rate_limit.py:21-32 | for every limit and every window length a request sequence that meets the bound |
| RateLimit.LimitHoldsExactly | src/tenancy/rate_limit.py:21-32 | the limit holds over every interval of the window's length in every run if and only if it is at most one |
| RateLimit.AllowedExactly | src/tenancy/rate_limit.py:21-32 | in every run, whatever the clock does, a request is allowed if and only if it names a tenant and fewer than the limit were allowed since the request that opened its window |
| RateLimit.TenantsIndependent | src/tenancy/rate_limit.py:21-32 | a tenant's bucket and answers depend on its own requests alone |

## Left out

- Payload field merging and event classification (`_is_filled_event`, `_extract_fill_fields`, `_coalesce_order_update`, `_classify_update`): an event arrives with its merged fields and its class, both arbitrary; order ids are already stripped and symbols upper-cased.
- The snapshot inactivity timer: whether an event is a replay is an arbitrary flag of the event, so every timing is covered.
- Sibling cancellation of bracket legs: nothing writes that map, so only its await point is kept. Bracket prices and the bracket request's body are left out.
- Later partial fills of an order: one fill row per order id means only the first recorded fill counts, in the code as in the model.
- LedgerBooks.TrackerIsBooks: a process restart empties the tracker and a failed positions write moves it alone, so runs with either, and with errors that hit a fill in flight, are outside this statement.
- Database sessions, tenants and trading modes of the ledger: one tenant and one mode per ledger; each table is a map or a sequence and each transaction one step.
- Decimal and float rounding, overflow and NaN: quantities are exact reals, except where the source rounds on purpose (share counts and stop prices).
- Number conversion in the JSON decoder: a number keeps its spelling; the recursion limit and the limit on the digits of an integer are left out.
- Encryption of tokens, the OAuth exchange itself, the unlocked timer refresh in the platform runner and other writers of the credentials row.
- CSV loading and missing cells; in `MultiSim` and `Sim006` indicator columns, bands and signals are inputs, so the laws hold for any columns. Symbol lists there are taken as sorted.
- Equity in the no-look-ahead theorem: a held ticker without a bar is marked at its series' last close, which does look ahead.
- CSV files with a repeated day: each history of `Backtest002` is taken as strictly increasing by day; the loader sorts the days but keeps repeats.
- The broker filling a protective stop on its own, and an exception between the bar and its stop check. The swing strategy is modelled with its broker context set; the volatility index of the day is an input.
- Symbols that match the broker's spelling of a listed one at startup: the model takes over positions in any symbols at all.
- Sharpe, Sortino and Calmar ratios, report generation, downloads, HTTP, Redis, migrations, and the end-of-day flatten of `intraday_manager.py`.
- Risk thresholds, account routing, registries, `gap_fade.py` and `futures_intraday.py`: single-branch or weaker claims.
