# A verified model of the shadow trader

The bot trades five-minute up/down markets against a simulated ("shadow") exchange. This project models the logic
that decides whether its numbers can be believed, as Dafny 4.11 modules:

- `Orders`, `FillDelivery`: the order lifecycle and what repeated or reordered fill events do to one order.
- `Books`, `Mirror`: price-level books and the feed that mirrors them through snapshots, deltas, malformed events and
  reconnects.
- `Matching`, `Slivers`: the depth-limited taker walk, its optimality, and where its tolerance goes wrong.
- `Exchange`: the order manager and the shadow exchange as one state, every method a function on it. An exception is
  the `fault` latch: the step that raised goes no further. Feeds and background tasks log an exception and carry on
  (polymkt_bot/feeds/base.py:146-153), so runs go on from the state it left; one that ends the main loop ends the run.
- `OneOrder`, `Projection`, `NonInterference`, `Isolation`: everything the two objects hold about a single order as a
  machine of its own, the invariant that couples those views, and the proof that the whole is the product of its orders.
- `Executions`, `Requests`, `Intents`, `DeskLaws`, `RolloverTimes`: what the steps do, told in their inputs: at what
  price and fee fills are made and what they move in the accounts; what becomes of requests and intents; what the sniper
  buys and what a window settles at; what `manage_sessions` does by the clock.
- `Ledger`, `Risk`: accounting, settlement, gates, losing streaks.
- `OrderBounds`, `CoreBounds`: what an order keeps at any sizes and through exceptions.
- `Trading`, `TradingBase`, `TradingInvariant`, `TradingSafety`, `TradingOrders`, `Raising`, `Kill`, `Joining`, `MakerQueue`:
  sessions, gates, orders, exchange, market and accounts as one transition system, its invariants, and what holds in
  every run.
- `Polling`: exactly when `process_due` is insensitive to how often it is called.
- `Sniper`, `Newest`: the one-shot memory and its pruning.
- `DailyBudget`, `WorstCase`, `SniperDesk`, `DeskBudget`: the rollover, the sniper's evaluations and the trading system as
  one system, its daily loss budget, and what unsettled windows may still cost a day.
- `TradingExamples`, `GapRollover`, `DeskGap`: runs that show what the order manager and the gates do not rule out.
- `KCapture`, `Sessions`, `Rollover`, `RolloverOrder`, `RolloverSteps`, `RolloverClose`, `RolloverLate`: capture of the Price
  to Beat with eviction, session objects, and `manage_sessions` split at its awaits with oracle prints arriving at any of
  them.
- `Recording`, `Replay`: the recorder's queue, batches and hour files, and the replayer's clamped clock.
- `Correlation`: the one-pass correlation and the last-observation sweep.
- `ShadowTrading`: the mutable objects (`ManagedOrder`, `OrderManager`, `ShadowExchange`, the ledger), each method
  proved to refine its function in `Exchange`. `Mirror`, `Risk`, `Sniper`, `KCapture`, `Sessions`, `Recording` and
  `Replay` hold the classes of their own files.

Sizes and prices are reals; the code's tolerances 1e-9 and 1e-12 are kept. Claims that need a grid say so (`OnLot`:
multiples of 1e-6 shares, `OnTick`: multiples of 1e-4). Round trips, clocks, discovery answers, gate inputs and feed
events are arbitrary inputs. A fair run assumes one slug and two tokens of its own per window, fee rates in [0, 1] and
prices on the tick grid; a lawful run also has sizes on the lot grid, in books, intents and prints.

## Where the code does less than one might expect

- A cancel that falls due while its order is still in DRAFT makes `process_due` raise (`TradingExamples.UnsentCancelRaises`
  is such a run), and the due cancels behind it are lost: an order they were for stays pending or resting
  (`Isolation.RaisingInterferes`). Submitting an order twice raises as well. `TradingInvariant.RunInv` shows that on the
  lot grid nothing else does, `Raising.RunRaisesIff` what does at any sizes.
- The taker walk takes a sliver from the next level when the order is already FILLED to within 1e-9, and the sliver's
  fill raises. `Slivers.TakerRaisesIff` is the exact condition on the book, `Slivers.SliverExample` an input. In exact
  arithmetic no sliver can arise on the lot grid; in floating point it can: 0.8 against levels of 0.1, 0.7 and 5.0
  leaves 1.1e-16.
- `apply_fill` updates the order before it transitions, so a fill beyond a completed order raises and never reaches
  accounting, although the module promises that no fill is dropped.
  `FillDelivery.EveryOrderReachesAccounting` is the exact condition on the set of trades.
- `process_due` runs every due place before any due cancel, so a cancel that overtakes its own order's place makes the
  outcome depend on when the exchange is polled, unless the order would only rest (`Polling.PollingIff` is the exact
  condition, `Polling.OvertakingMatters` an input).
- Cancelling a session ends exactly the orders that are past DRAFT (`TradingOrders.Teardown`). One still in DRAFT, its
  submission queued, is passed over: submitted afterwards, it is pending with no cancel on its way
  (`TradingOrders.DraftEscapes`).
- An exit is still stopped by the price cap, a cooldown, a stale feed, a dirty book or an unsynced clock, although
  reducing risk is meant not to be blocked by entry gates (`Risk.ExitAllowedIff` is the exact condition).
- A later, older print moves the next session's K but not a close already settled. `RolloverClose.CloseMeetsNextK` is the
  exact condition under which the two agree, `RolloverLate.CloseIsNotNextK` a run in which they do not.
- The daily budget gate looks at one intent's stake and at what the day has realised, not at what its unsettled windows
  may still lose. Two windows in a row cannot both be open to loss, because the print that lets the sniper shoot in the
  second has settled the first (`DeskBudget.NeverTwoInARow`). But in the run of `DeskGap.GateAloneIsNotEnough` a window
  passes without a print, the sniper shoots again in the next, and the print that settles the first window arrives late:
  the day loses 8 with a limit of 5. `WorstCase.LossPossibleIff` is the exact condition on a state under which
  settlements can take a day to its limit, `WorstCase.GateIff` the condition the gate would have to check before a buy;
  the gate's own is the same as long as no unsettled window of the day may lose. `DeskBudget.SniperLossBound` shows that
  it is enough with the sniper if boundaries are captured before it shoots again that day.

## Model

| member | source | states |
|---|---|---|
| TradingSafety.WindowLossBound | polymkt_bot/engine.py:369-417 | In every run with prices on the tick grid, at any sizes and whatever steps of it raised, the buy fills of a session have cost at most the stake it has used, the stake is within the per-window cap, and a settled session has lost at most its stake and at most the cap |
| TradingSafety.PaidWithinStake | polymkt_bot/risk/risk_manager.py:123-126 | At every point of a run, collateral paid by a session's buy fills <= stake used <= cap + 1e-9: gates, drafting and limit-respecting matching together |
| TradingSafety.SettlementAtLeast | polymkt_bot/accounting/pnl.py:48-66 | Settling a session now, whichever token wins, realises at least minus its stake |
| TradingSafety.Conservation | polymkt_bot/engine.py:454-459 | In every such run what accounting was told about each order never exceeds its size, and is its filled size, but for less than 1e-9 of a FILLED order if some step raised; every posting sits under its own order's session; every book is the fold of exactly its session's fills |
| TradingSafety.SettledStep | polymkt_bot/engine.py:264-285 | No step, raising or not, changes the outcome, positions or realised PnL of a session already settled |
| TradingSafety.SettledForever | polymkt_bot/engine.py:264-285 | The same over every continuation of a run, through exceptions: settled once, then frozen |
| TradingSafety.SettlementFromFills | polymkt_bot/accounting/pnl.py:96-107 | In every such run a settled session's PnL is its net cash over all fills it ever had plus one dollar per winning share; each day's figure is the sum over that day's sessions, each counted once |
| TradingInvariant.StepInv | polymkt_bot/sim/shadow_exchange.py:136-291 | Every lawful step, raising or not, keeps the whole-system invariant, and raises IllegalTransition exactly when it submits an order past DRAFT or lets a cancel fall due on an order still in DRAFT |
| TradingInvariant.RunInv | polymkt_bot/exec/order_manager.py:114-126 | The invariant holds at the end of every lawful run, whatever raised on the way, and each step of it raises if and only if it is one of those two misuses |
| TradingInvariant.ElapseFaultMeans | polymkt_bot/sim/shadow_exchange.py:145-153 | On the lot grid process_due raises only on a due cancel of an order still in DRAFT |
| TradingInvariant.ElapseFaults | polymkt_bot/sim/shadow_exchange.py:251-258 | process_due always raises on a due cancel of an order still in DRAFT |
| Raising.RunRaisesIff | polymkt_bot/sim/shadow_exchange.py:136-224 | Every exception of every run at any sizes, whatever was raised before: a step raises if and only if it submits an order past DRAFT, lets a cancel fall due on one in DRAFT, or lets the place of a taking order fall due whose book shows it a sliver; prints never raise |
| Raising.ElapseRaises | polymkt_bot/sim/shadow_exchange.py:136-153 | For one order, at any sizes, process_due raises exactly when its due place meets a sliver or a cancel is due in DRAFT |
| TradingBase.SettledBookFrozen | polymkt_bot/engine.py:276-280 | In every bounded state a call into the order manager or the exchange, raising or not, leaves the book of a settled session as it was, its tokens being untracked |
| TradingBase.StepBounded | polymkt_bot/engine.py:369-417 | Every step at any sizes, raising or not and after a step that raised or not, keeps each order's postings within its size and limit, each session's stake the limit value of its buys, and the books and days in balance; only submitting and process_due can raise |
| Intents.IntendMeans | polymkt_bot/engine.py:369-415 | An admitted intent becomes exactly one new order, in DRAFT with nothing filled, with the session's slug, the intent's side, price, size and time in force, and the session's up token for UP and its down token for DOWN; a buy uses its value of the window's stake, and nothing else changes. An intent that is not admitted changes nothing at all |
| Intents.BuyAdmittedIff | polymkt_bot/engine.py:369-399 | A buy is admitted if and only if its window is open, not killed or cooling down, K and fees are known, the book clean, feeds fresh, the clock synced, the price under the cap, the time past the warm-up (unless the arm time has begun) and before the lockout, outside the tie band, within the stake, exposure and daily budgets, and of at least the minimum size with enough on show |
| Intents.SaleAdmittedIff | polymkt_bot/engine.py:378-399 | A sale is admitted if and only if the market is tradable in those respects, whatever the time, the budgets and the size |
| Intents.SettleMeans | polymkt_bot/engine.py:264-285 | Settling pays the session's cash and one dollar for each share it holds of the token of the outcome, once, on the day of its window, stops tracking its two tokens, and changes nothing of any other session |
| Intents.OpenMeans | polymkt_bot/engine.py:217-232 | Opening a session starts it without a stake, tracks its two tokens, books they had being kept, and sets their fee rate if the session's fees are known |
| Intents.CloseMeans | polymkt_bot/engine.py:248-258 | Closing leaves an open session waiting for its close and changes nothing else |
| Intents.BookMeans | polymkt_bot/feeds/polymarket_clob_ws.py:191-234 | A book event replaces the book of a tracked token and changes nothing else |
| TradingExamples.UnsentCancelRaises | polymkt_bot/exec/order_manager.py:216-232 | A lawful run from the start that raises: an admitted order is cancelled before it is submitted, and process_due raises when the cancel falls due, whenever that is |
| TradingOrders.StepLife | polymkt_bot/sim/shadow_exchange.py:88-291 | Every step of the whole system that does not raise does to each order exactly what that order's own machine does |
| TradingOrders.StepCut | polymkt_bot/sim/shadow_exchange.py:145-153 | A lawful step that raises does too, except that of an order's due cancels only a first part has arrived and the rest is lost |
| TradingOrders.TerminalForever | polymkt_bot/exec/order_manager.py:50-80 | A terminal order keeps its state, its filled size and its postings through every continuation of a run, through exceptions |
| TradingOrders.Teardown | polymkt_bot/exec/order_manager.py:234-237 | After a session is cancelled, once time has passed the order's recorded due times it is neither pending nor resting, and it is terminal if and only if it was past DRAFT at the cancel, whichever of place, cancel and tape won; provided it is not submitted from DRAFT afterwards and no cancel falls due for an order in DRAFT |
| TradingOrders.DraftEscapes | polymkt_bot/exec/order_manager.py:187-213 | An order still in DRAFT when its session is cancelled, with no cancel of its own, is pending once submitted, and no cancel is on its way to it |
| TradingOrders.DoomedRun | polymkt_bot/sim/shadow_exchange.py:127-134 | Once a cancel is on its way to an order it stays on its way until the exchange has let go of the order, which stays in DRAFT exactly if it was |
| TradingOrders.DoomedEnds | polymkt_bot/sim/shadow_exchange.py:251-258 | Time past its due times ends an order for which a cancel is on its way: terminal exactly if it was past DRAFT |
| Requests.TimeMeans | polymkt_bot/sim/shadow_exchange.py:136-258 | What passing time does to any order of the system: its place, if due, arrives; any cancel of it that is due then takes it off the exchange, CANCELED unless it is terminal; what is not due stays, and without either nothing happens to it |
| Requests.LandMeans | polymkt_bot/sim/shadow_exchange.py:182-249 | What an arrival comes to: EXPIRED with nothing on an unusable book; min(size, reach over the 64 best levels) at once for a taker or a maker priced through the touch, all or nothing for FOK, FILLED if that is its size and EXPIRED otherwise; and rest behind the visible size for any other |
| Requests.SubmitMeans | polymkt_bot/exec/order_manager.py:187-213 | A draft is submitted once: acknowledged, known by its exchange id, and pending until its due time; any other order raises and stays as it is |
| Requests.FillReaches | polymkt_bot/exec/order_manager.py:240-268 | A fill event goes to the one order it names, by its exchange id once acknowledged or by its client id, and is reported with that order's session if the order takes it |
| Requests.UnknownFill | polymkt_bot/exec/order_manager.py:240-246 | A fill event for an unknown order changes nothing |
| Requests.DueMeans | polymkt_bot/sim/shadow_exchange.py:138-149 | Exactly what is due by now goes, in the order it was recorded, and the rest stays |
| Kill.KillEnds | polymkt_bot/engine.py:565-569 | Every order past DRAFT of a session that the kill handler cancels is terminal and out of the exchange once time has passed its due times, whatever happens meanwhile but a cancel falling due for a DRAFT order |
| Kill.NoOrderAfterKill | polymkt_bot/risk/risk_manager.py:81-88 | After a kill no order is drafted, whatever is intended, exits included |
| MakerQueue.QueueClosedForm | polymkt_bot/sim/shadow_exchange.py:155-179 | Over any lawful run of non-negative prints in which nobody cancels it, whatever else raises, a resting order has filled exactly min(size, max(0, V - queue at join)), V being the volume of the prints of its token, from its activation on, at its price or through it (at or below for a buy, at or above for a sale, to within 1e-12) |
| MakerQueue.TapeQueued | polymkt_bot/sim/shadow_exchange.py:160-179 | One print moves the queue and the fill of a resting order along that closed form, contributing its size if it is such a print and nothing otherwise |
| Joining.RestsWhen | polymkt_bot/sim/shadow_exchange.py:226-249 | An arriving order rests exactly when it is no taker, its book is usable and nothing opposite is at or through its price; it then joins with its whole size behind what is visible at its price, and otherwise is FILLED or EXPIRED at once |
| Joining.QueueAheadMeans | polymkt_bot/sim/shadow_exchange.py:238-243 | On the tick grid the queue ahead is the size of the oldest level listed at exactly the order's price, or zero |
| Joining.CrossesMeans | polymkt_bot/sim/shadow_exchange.py:229-234 | A maker order crosses exactly when some opposite level is at or through its price |
| DeskBudget.SniperLossBound | polymkt_bot/risk/risk_manager.py:132-135 | Rollover, sniper, gates, exchange and accounts together, through exceptions: if, whenever the sniper shoots, the closing boundary of each other window that has traded that day has been captured, every UTC day's realised PnL stays strictly above the loss limit, throughout every run |
| DeskBudget.NothingWorseWaits | polymkt_bot/risk/risk_manager.py:132-135 | In every such run no settlement of what is unsettled, at whichever outcomes and in whichever order, takes a day to its limit either |
| DeskBudget.NeverTwoInARow | polymkt_bot/engine.py:130-141 | In every fair run, whatever prints arrive, when the sniper shoots in a window the one that closed at its opening is settled if it has traded |
| DeskBudget.EventOk | polymkt_bot/engine.py:184-417 | Every fair event of that system, at whichever await and through exceptions, keeps sessions and trading sessions in step, stakes only in windows that were current and have a K, and evaluations going forward |
| DeskBudget.EventInv | polymkt_bot/engine.py:184-417 | Every event that keeps to the condition on boundaries keeps the budgets too |
| DeskBudget.ShotsIncrease | polymkt_bot/strategy/sniper.py:34-65 | In every such run the windows shot in are all different and in order, though the memory is pruned |
| DeskLaws.ShotDrafts | polymkt_bot/engine.py:317-415 | A shot that is admitted becomes one order for the token of the outcome shot at, at the best ask of that very token's book |
| DeskLaws.ShotWanted | polymkt_bot/strategy/sniper.py:28-83 | Whenever the sniper shoots, it has that edge: model probability at its minimum or above, p less the best ask, the fee at that ask and the slippage at the minimum edge or above, inside the arm time, sized by what is on show |
| DeskLaws.ShotAdmitted | polymkt_bot/engine.py:338-399 | A shot becomes an order only with both books clean, feeds fresh, clock synced, size enough at the best ask of its token, and room in the window's stake, the exposure and the day's loss budget |
| DeskBudget.CapturedIsSettled | polymkt_bot/engine.py:130-141 | A window that has traded and whose closing boundary has been captured is settled, unless it is the current one |
| WorstCase.LossPossibleIff | polymkt_bot/accounting/pnl.py:99-107 | From any bounded state, settling unsettled sessions at some outcomes in some order can take a day to its limit if and only if the day's figure plus the worse outcomes of those of its unsettled sessions that may lose is there already |
| WorstCase.SettlingThemIff | polymkt_bot/accounting/pnl.py:99-107 | Settling exactly a given set of the day's unsettled sessions can do so if and only if the day's figure plus the worse of the two settlement totals of each of them is there already |
| WorstCase.GateIff | polymkt_bot/risk/risk_manager.py:132-135 | After a first buy in a window settlements can take the day to its limit if and only if the day's worst figure before it, less what was paid, is there already; that figure is the day's own, which the gate takes, exactly if no unsettled session of the day may lose |
| WorstCase.OneStakeSuffices | polymkt_bot/risk/risk_manager.py:132-135 | With at most one unsettled window of a day at stake, and the day inside its limit without that stake, no settlement takes the day there |
| WorstCase.SettlesAtLeast | polymkt_bot/accounting/pnl.py:48-66 | Whatever only settles leaves a day with at least its figure plus the worse outcomes of the sessions it has settled |
| DeskGap.GateAloneIsNotEnough | polymkt_bot/risk/risk_manager.py:132-135 | A run of the desk from its opening, in order but for the second shot: a window passes without a print, the next shot is admitted although the worst case of the day is beyond the limit already, a late print settles the first window, and the day loses 8 with a limit of 5 |
| GapRollover.LatePrintSettles | polymkt_bot/engine.py:130-141 | A print of a window that passed without one settles the window before it, however late it arrives |
| DeskBudget.RollingLinked | polymkt_bot/engine.py:248-285 | One step of the rollover opens, closes or settles at most one trading session, and leaves every trading session where its session object is |
| RolloverSteps.StepGrew | polymkt_bot/engine.py:184-262 | One step of the rollover closes or settles at most one session, the one concerned; it adds at most one; and a new current session started after all that ever were current |
| DailyBudget.DailyLossBound | polymkt_bot/risk/risk_manager.py:132-135 | The same bound, at any sizes and through exceptions, for any buyer that shoots at most once per window, and only after the day's other traded windows have settled |
| DailyBudget.StepBudget | polymkt_bot/accounting/pnl.py:99-107 | The budget invariant behind it: at most one unsettled window of a day has money at stake, and every day would stay inside its budget if that stake were lost |
| DailyBudget.Admission | polymkt_bot/engine.py:378-399 | An admitted buy leaves the budget of the day its window settles on intact even if its whole stake is lost |
| OneOrder.EmitSound | polymkt_bot/exec/order_manager.py:240-272 | On the lot grid, emitting a fill that fits what is left of a live order never raises and books exactly that fill: its price and size, and for a taker the fee rate * p * (1 - p) * size, in shares on a buy and in USDC on a sale; a maker pays none |
| OneOrder.EmitQuotesSound | polymkt_bot/sim/shadow_exchange.py:221-222 | A run of quotes that fits a live order fills it by exactly their total |
| OneOrder.TakeSound | polymkt_bot/sim/shadow_exchange.py:197-224 | A taker order leaves the exchange at once, FILLED or EXPIRED, having been told of one trade a quote of its walk, at the quote's price and with the fee of that price |
| OneOrder.TakerGets | polymkt_bot/sim/shadow_exchange.py:197-224 | A taker order gets exactly min(size, visible within its limit over the 64 best levels), a FOK order all or nothing, and ends FILLED exactly when that is its whole size |
| Executions.TakerTradeAt | polymkt_bot/sim/shadow_exchange.py:197-224 | The k-th trade of a taker is the k-th quote of its walk, field by field: price, size, and rate * p * (1 - p) * size as fee for prices strictly between 0 and 1, in shares on a buy, in USDC on a sale |
| Executions.TakerPosts | polymkt_bot/sim/shadow_exchange.py:260-291 | What the exchange posts for a taker is one posting a quote of its walk, with that price, size and fee, its own token, side and session and consecutive trade numbers; no such call that returns posts anything else |
| Executions.TakerMoves | polymkt_bot/accounting/pnl.py:19-31 | In the accounts a taker's buy costs exactly the value of its walk and brings its size less the fees in shares; a sale brings its value less the fees in cash; no other session or token moves |
| Executions.TakerPaysLeast | polymkt_bot/sim/shadow_exchange.py:197-224 | So no feasible allocation of the same size over the visible levels would have cost the ledger less, or paid it more before fees |
| Executions.TapeTells | polymkt_bot/sim/shadow_exchange.py:155-179 | A print gives a resting order at most one trade: at the order's own price, without a fee, of what the queue ahead leaves for it |
| Executions.TapePosts | polymkt_bot/sim/shadow_exchange.py:155-179 | Posted is exactly that trade, if the print is of its token, comes when it is active, trades at its price or through it and leaves something for it, and nothing otherwise |
| Executions.EligibleOnTicks | polymkt_bot/sim/shadow_exchange.py:160-165 | On the tick grid a print counts for a buy exactly if it is at or below its price, for a sale if it is at or above |
| TradingBase.OwnRate | polymkt_bot/engine.py:228-231 | The rate a fee is charged at is the one of the order's own session, its base fee in basis points over 10000 |
| OneOrder.LandCoupled | polymkt_bot/sim/shadow_exchange.py:182-195 | An arriving order ends terminal or resting with its whole size, and every view of it agrees |
| OneOrder.PlacesDueCoupled | polymkt_bot/sim/shadow_exchange.py:138-144 | Due places keep the views of an order in agreement |
| OneOrder.ElapseCoupled | polymkt_bot/sim/shadow_exchange.py:136-153 | For one order process_due raises exactly when a cancel is due and it is in DRAFT, and otherwise keeps its views in agreement |
| OneOrder.TapeCoupled | polymkt_bot/sim/shadow_exchange.py:155-179 | A print keeps the resting entry equal to what is left of its order, and removes it exactly when the order is complete |
| OneOrder.AskCancelAllCoupled | polymkt_bot/exec/order_manager.py:234-237 | Cancelling a session changes no order's state and keeps every view in agreement |
| OneOrder.FeeBounds | polymkt_bot/exec/fees.py:28-38 | The fee per share lies between zero and the price, and is at most one dollar |
| NonInterference.ProcessDueProjects | polymkt_bot/sim/shadow_exchange.py:136-153 | process_due, seen from each order, is its own due places in due order and then its own due cancels; it raises only if some order's part does |
| Exchange.ByDueSorts | polymkt_bot/sim/shadow_exchange.py:138-149 | Requests are met in the order of their due times, those due together in the order they were made, none lost or repeated |
| NonInterference.ElapseCut | polymkt_bot/sim/shadow_exchange.py:145-153 | If no place raises, process_due is for each order its due places and then a first part of its due cancels, all of them unless some order's cancel raises |
| NonInterference.ArrivalsProject | polymkt_bot/sim/shadow_exchange.py:143-144 | A batch of arrivals affects each order by its own arrivals only |
| NonInterference.OnTradeProjects | polymkt_bot/sim/shadow_exchange.py:155-179 | A print affects each resting order as if it were alone |
| NonInterference.CancelAllProjects | polymkt_bot/sim/shadow_exchange.py:127-134 | cancel_all asks for one cancel per resting entry and per pending place of the session, and affects no other order |
| OneOrder.CancelAllAsks | polymkt_bot/sim/shadow_exchange.py:127-134 | For one order of the session that is one cancel for its resting entry and one for each pending place, due when its own round trip is over, and the flag if it is open; any other order is left alone |
| Isolation.NonInterferenceFromStart | polymkt_bot/sim/shadow_exchange.py:136-291 | Deleting every place and cancel of all other orders from a history leaves one order's fills, pending requests and final state unchanged, trade numbers apart, and makes nothing raise that did not; provided no exception of process_due or on_trade meets the order while something of it is due or traded |
| Isolation.DeletingOthers | polymkt_bot/sim/shadow_exchange.py:136-291 | The same, under the same condition, from any two states that look alike to the order |
| Isolation.RaisingInterferes | polymkt_bot/sim/shadow_exchange.py:146-153 | A history for which that condition fails: a due cancel of a DRAFT order raises and the due cancel of another order is lost, so that it stays pending; without the first order's cancel it is cancelled |
| FillDelivery.DeliveredTotals | polymkt_bot/exec/order_manager.py:240-268 | From any state of an order, after any sequence of identified, consistent fills the filled size is min(size, what it was + sum over distinct unseen trades), the fee totals have grown by their sums, and the state is determined by them |
| Orders.EnteredFrom | polymkt_bot/exec/order_manager.py:50-80 | From which states each order state can be entered, and that exactly the terminal ones have no way out |
| FillDelivery.DeliveryOrderIrrelevant | polymkt_bot/exec/order_manager.py:247-250 | Permuting or repeating fill events changes nothing about the order |
| FillDelivery.TerminalAbsorbing | polymkt_bot/exec/order_manager.py:255-268 | No fill event moves an order out of a terminal state |
| FillDelivery.EveryOrderReachesAccounting | polymkt_bot/exec/order_manager.py:250-272 | Accounting hears of every distinct unseen trade, once, in every delivery order, if and only if no trade is left over once the others have completed the order; for a canceled order that is always so |
| FillDelivery.LateFillsReachAccounting | polymkt_bot/exec/order_manager.py:252-263 | Every fill of an order already canceled reaches accounting, whatever its size, and the order stays CANCELED |
| Matching.WalkLevels | polymkt_bot/sim/shadow_exchange.py:201-216 | The loop collects exactly the quotes of the recursive walk and leaves the same remainder |
| Matching.WalkFillsVisible | polymkt_bot/sim/shadow_exchange.py:197-224 | Over levels sorted best first the walk fills exactly min(size, size visible within the limit) |
| Matching.GreedyOptimal | polymkt_bot/sim/shadow_exchange.py:197-224 | Among all ways of taking the same total from the visible levels within the limit, the walk costs least when buying and brings most when selling |
| Matching.GreedyCheapest | polymkt_bot/sim/shadow_exchange.py:197-224 | Any allocation of at least the walk's total costs at least as much as the walk plus the excess at the best price |
| Matching.WalkIsCheapest | polymkt_bot/sim/shadow_exchange.py:197-224 | The walk is itself a feasible allocation: its quotes are what that allocation takes from each level, its cost their value, and every feasible allocation of as much costs at least that |
| Matching.LimitMeans | polymkt_bot/sim/shadow_exchange.py:205-207 | On the tick grid a limit admits exactly the prices at or inside it |
| Matching.WalkOnGrid | polymkt_bot/sim/shadow_exchange.py:208-216 | On the grids every quote is a positive number of lots within the limit, and the remainder is a number of lots |
| Slivers.TakerRaisesIff | polymkt_bot/sim/shadow_exchange.py:197-224 | At any real sizes a fresh taker order raises IllegalTransition if and only if what some of its best levels show within the limit falls short of its size by no more than 1e-9 and a further level within the limit shows anything |
| Slivers.WalkSliver | polymkt_bot/sim/shadow_exchange.py:208-216 | The walk goes on after quotes that complete the order to within 1e-9 exactly when the levels are like that |
| Slivers.EmittedRaise | polymkt_bot/exec/order_manager.py:265-268 | The same for any run of positive quotes on a live, partly filled order |
| Slivers.RaisingFillIsLost | polymkt_bot/exec/order_manager.py:254-268 | A fill that raises has already moved the filled size and leaves state and accounting as they were |
| Slivers.SliverExample | polymkt_bot/sim/shadow_exchange.py:209-216 | An order for one share, half a billionth more than the first ask shows, with a second ask within the limit: it raises |
| Polling.PollingIff | polymkt_bot/sim/shadow_exchange.py:136-153 | process_due(a) then process_due(b) gives the same orders, fills, pending requests and trade numbers as process_due(b) if and only if each order with a cancel due by a, whose place falls due after a and by b, would only rest on arrival |
| Polling.PollingIrrelevant | polymkt_bot/sim/shadow_exchange.py:136-153 | The same way round without the coupling invariant: if each such order would only rest, one poll more changes nothing |
| Polling.OrderedCancelsPoll | polymkt_bot/sim/shadow_exchange.py:136-153 | In particular when every pending cancel is due no earlier than the pending place of its order |
| Polling.OvertakingMatters | polymkt_bot/sim/shadow_exchange.py:136-153 | A core where it does change the outcome: an order ends CANCELED when polled early and EXPIRED when polled late |
| Polling.DueSplit | polymkt_bot/sim/shadow_exchange.py:139-144 | The due list at b in due order is the due list at a followed by what falls due between a and b |
| Polling.CancelsThrough | polymkt_bot/sim/shadow_exchange.py:251-258 | A batch of cancels after a batch of arrivals does what it does before the arrivals of all other orders, if the orders it concerns would only rest |
| Ledger.PostAllBalanced | polymkt_bot/accounting/pnl.py:96-97 | Whatever is posted, each book stays the fold of exactly its own slug's fills, and neither realised figures nor days change |
| Ledger.CashIsNetCash | polymkt_bot/accounting/pnl.py:26-30 | A book's cash is the signed sum of price times size over its fills, less sell fees |
| Ledger.SharesAreNetShares | polymkt_bot/accounting/pnl.py:26-30 | A book's balance of a token is shares bought less shares sold less shares withheld as fees |
| Ledger.PositionsAreTallies | polymkt_bot/accounting/pnl.py:19-46 | A book counts its session's fills and holds of each token, field by field, what they add up to: cash, shares, and the fees on either side |
| Ledger.SettleAtLeastCash | polymkt_bot/accounting/pnl.py:48-66 | Settlement never realises less than the net cash |
| Ledger.SettleClosedForm | polymkt_bot/accounting/pnl.py:48-66 | Settlement realises net cash plus the winner's balance, once, if it is positive |
| Ledger.RealizedFromFills | polymkt_bot/accounting/pnl.py:48-66 | The same straight from the session's fills |
| Books.RankedSorts | polymkt_bot/feeds/polymarket_clob_ws.py:81-84 | top_levels without a cut is the same levels sorted best first |
| Books.RankedHead | polymkt_bot/feeds/polymarket_clob_ws.py:69-79 | Its head is best_bid or best_ask, ties going to the oldest key in both |
| Books.RankedStable | polymkt_bot/feeds/polymarket_clob_ws.py:81-84 | Ranking keeps levels of one price in the order they were put in, for bids as for asks |
| Books.PutOrder | polymkt_bot/feeds/polymarket_clob_ws.py:55-63 | A change of a level keeps the order of the keys, a new one coming last |
| Books.TopLevelsRank | polymkt_bot/feeds/polymarket_clob_ws.py:81-84 | The n best levels: sorted, taken from the side, headed by its best, none left out being better |
| Books.CrossedMeans | polymkt_bot/feeds/polymarket_clob_ws.py:65-67 | A book is crossed exactly when some bid is at or above some ask |
| Mirror.CleanNeverCrossed | polymkt_bot/feeds/polymarket_clob_ws.py:46-67 | Over every sequence of snapshots, deltas, malformed events and reconnects a book that is not dirty is not crossed, and no key is listed twice |
| Mirror.OnlySnapshotsClean | polymkt_bot/feeds/polymarket_clob_ws.py:191-208 | A dirty book becomes clean only through a complete uncrossed snapshot of its own token, and is then exactly that snapshot |
| Mirror.ChangesTakeEffect | polymkt_bot/feeds/polymarket_clob_ws.py:210-232 | A price change leaves under each key of each side what the last entry on that key before any malformed one says |
| Mirror.CollectTakesLast | polymkt_bot/feeds/polymarket_clob_ws.py:49-50 | In a snapshot the last entry of a repeated key counts |
| Mirror.UpdatedSound | polymkt_bot/feeds/polymarket_clob_ws.py:55-63 | No event makes a clean book crossed; only an uncrossed snapshot clears dirtiness |
| Mirror.DirtyAfter | polymkt_bot/feeds/polymarket_clob_ws.py:191-234 | What makes a book dirty: a reconnect or an unreadable event; a snapshot exactly if it overlaps; a run of changes if it was already, or if a change is unreadable or leaves it overlapping |
| Mirror.ContentAfter | polymkt_bot/feeds/polymarket_clob_ws.py:191-234 | What a snapshot, a half-read one, an unreadable event and a reconnect leave in the book |
| Mirror.EventReaches | polymkt_bot/feeds/polymarket_clob_ws.py:176-189 | An event changes the book of its own token only, a reconnect every book |
| Mirror.OrderBook.ApplySnapshot | polymkt_bot/feeds/polymarket_clob_ws.py:46-53 | Replaces both sides and is dirty exactly if crossed; a list that cannot be read raises, after the bids were replaced if it is the asks |
| Mirror.OrderBook.ApplyDelta | polymkt_bot/feeds/polymarket_clob_ws.py:55-63 | Puts or removes one level and becomes dirty if crossed |
| Mirror.OrderBook.ApplyChanges | polymkt_bot/feeds/polymarket_clob_ws.py:215-232 | The loop applies the entries before the first malformed one, which leaves the book dirty |
| Mirror.CollectLevels | polymkt_bot/feeds/polymarket_clob_ws.py:49-50 | The comprehension over a list of levels as a loop |
| Mirror.ClobMarketFeed.TrackTokens | polymkt_bot/feeds/polymarket_clob_ws.py:133-140 | Tracks the new tokens with untouched books, keeps the others' books, and reports exactly the new ones |
| Mirror.ClobMarketFeed.UntrackTokens | polymkt_bot/feeds/polymarket_clob_ws.py:142-144 | Forgets exactly the given tokens |
| Mirror.ClobMarketFeed.OnBook | polymkt_bot/feeds/polymarket_clob_ws.py:191-208 | A snapshot replaces its own token's book and no other; one with a malformed list leaves that book dirty |
| Mirror.ClobMarketFeed.OnPriceChange | polymkt_bot/feeds/polymarket_clob_ws.py:210-234 | A price change touches its own token's book and no other |
| Mirror.ClobMarketFeed.OnConnected | polymkt_bot/feeds/polymarket_clob_ws.py:146-148 | A connection makes every book dirty and changes nothing else |
| Risk.AllowedMeans | polymkt_bot/engine.py:390-399 | An order that passes the gates is for a market with known fees; a buy also fits the stake cap, the exposure cap and the day's loss budget in an entry phase |
| Risk.EntryAllowedIff | polymkt_bot/risk/risk_manager.py:91-146 | A buy goes ahead exactly when the market is tradable, the time is an entry time by the clock, the price is outside the tie band, the three budgets allow its price times size, and size and liquidity suffice; each condition written out |
| Risk.PhaseMeans | polymkt_bot/markets/session.py:74-85 | The phase by the clock: closed from the close on, lockout in the last seconds, armed in those before, and otherwise warm-up until its time is over and mid after |
| Risk.GatesMean | polymkt_bot/risk/risk_manager.py:91-146 | The gates reported are exactly those that fail, each written out, in the order of check_entry and without repetition |
| Risk.ExitAllowedIff | polymkt_bot/engine.py:390-396 | A sale goes ahead exactly when the market is tradable: not killed, no cooldown, K and fees known, feeds fresh, book clean, clock synced, price within the cap |
| Risk.EntryOnSettlementDay | polymkt_bot/markets/session.py:74-85 | For windows of any length that divides the day, an entry phase lies inside its window, so the day whose budget the gate reads is the day the window settles on |
| Risk.CooldownEveryNthLoss | polymkt_bot/risk/risk_manager.py:57-75 | After any sequence of results the counter is the length of the losing run modulo the limit, and the cooldown is the one engaged at the latest multiple |
| Risk.RiskManager.RecordWindowResult | polymkt_bot/risk/risk_manager.py:57-75 | Counts, engages the cooldown and resets as that specification says |
| Risk.RiskManager.CheckEntry | polymkt_bot/risk/risk_manager.py:91-146 | Collects exactly the gates that fail, in order, and allows entry exactly when there is none |
| Risk.RiskManager.CheckDailyLoss | polymkt_bot/risk/risk_manager.py:77-79 | Kills exactly at or below the negative daily limit |
| Risk.RiskManager.Kill | polymkt_bot/risk/risk_manager.py:81-86 | Latches the flag and the first reason |
| Sniper.OneShotPerWindow | polymkt_bot/strategy/sniper.py:63-65 | As windows go forward no window is shot in twice, although the memory is pruned from 64 to 32 |
| Sniper.RefireNeedsNewer | polymkt_bot/strategy/sniper.py:63-65 | In any order of evaluations a window is shot in again only after at least 32 newer windows have been |
| Sniper.ShotsAreAtTheTouch | polymkt_bot/strategy/sniper.py:28-83 | Every shot is a fill-and-kill buy at the ask of the chosen outcome, in the armed phase, with a known K and fee, at an acceptable price and edge |
| Sniper.FiresIff | polymkt_bot/strategy/sniper.py:28-89 | The sniper asks for an order if and only if it is that order: enabled, armed, K known, the likelier outcome at its minimum probability, at its best ask, under the price cap, with p - ask - rate * ask * (1 - ask) - slippage at the minimum edge or above, and the size of its rule, rounded to the nearest hundredth |
| Sniper.RememberMeans | polymkt_bot/strategy/sniper.py:63-65 | Up to 64 windows are remembered; one more, and exactly the 32 newest are left |
| Sniper.SizeBounds | polymkt_bot/strategy/sniper.py:85-89 | Sizes are hundredths of a share, hence on the lot grid, and exceed depth share, stake and cap by at most half a hundredth |
| Sniper.StakeBounds | polymkt_bot/strategy/sniper.py:85-89 | The stake of a shot exceeds the smaller of stake and cap by at most the rounding of its size |
| Sniper.SniperStrategy.Evaluate | polymkt_bot/strategy/sniper.py:28-83 | Holds in a window it remembers, otherwise decides as specified, and remembers exactly the shots of its history |
| Sniper.SniperStrategy.Note | polymkt_bot/strategy/sniper.py:63-65 | Adds a window and prunes to the 32 newest when there are more than 64 |
| KCapture.EarliestWins | polymkt_bot/feeds/rtds_chainlink_ws.py:116-140 | For prints in any order the stored K of each window with fewer than 16 newer windows seen is, despite eviction, the print of smallest oracle time, first received among equals, with 1000 * start <= time < 1000 * (start + length), and there is none if and only if no print was made then |
| KCapture.EarliestMeans | polymkt_bot/feeds/rtds_chainlink_ws.py:116-121 | The earliest print is one made in the window, precedes or equals every other of it and strictly precedes those received before it; there is none exactly if no print was made in it |
| KCapture.WindowOfMeans | polymkt_bot/feeds/rtds_chainlink_ws.py:116-121 | A print is filed under exactly one window, the aligned one its milliseconds lie in: start % length == 0 and 1000 * start <= time < 1000 * (start + length), for times from zero on |
| KCapture.EvictKeepsRecent | polymkt_bot/feeds/rtds_chainlink_ws.py:123-125 | Eviction keeps every window with fewer than 16 newer ones, with its capture |
| KCapture.EvictMeans | polymkt_bot/feeds/rtds_chainlink_ws.py:123-125 | Up to 32 windows are stored; one more, and exactly the 16 newest are left, each with its capture |
| KCapture.WindowContains | polymkt_bot/clock.py:66-67 | Every second lies in exactly one aligned window, the one window_start gives |
| KCapture.RtdsChainlinkFeed.HandlePrint | polymkt_bot/feeds/rtds_chainlink_ws.py:103-113 | Keeps the latest print by oracle time and captures K for the window the print was made in; reports a capture exactly when one was made |
| KCapture.RtdsChainlinkFeed.MaybeCaptureK | polymkt_bot/feeds/rtds_chainlink_ws.py:116-137 | Stores a print under the aligned window that its milliseconds lie in if that window has none or a newer one, evicts, and reports it |
| KCapture.RtdsChainlinkFeed.EvictOld | polymkt_bot/feeds/rtds_chainlink_ws.py:123-125 | The deletion loop leaves exactly the 16 newest windows |
| KCapture.RtdsChainlinkFeed.GetK | polymkt_bot/feeds/rtds_chainlink_ws.py:139-140 | Looks up a window's capture |
| Newest.LargestUnique | polymkt_bot/strategy/sniper.py:64-65 | Keeping n elements above all others can be done in one way only |
| Newest.DropSmallest | polymkt_bot/feeds/rtds_chainlink_ws.py:124-125 | Deleting the smallest of more than n elements changes nothing about the n largest |
| Newest.DroppedHaveLarger | polymkt_bot/strategy/sniper.py:64-65 | Whatever is not among the n kept has n larger elements among them |
| Sessions.OldestWins | polymkt_bot/markets/session.py:68-72 | After any captures in any order a session holds the one of smallest oracle time, the first received among equals, and is otherwise unchanged |
| Sessions.MarketSession.Transition | polymkt_bot/markets/session.py:63-66 | Moves along the allowed transitions and raises otherwise, changing nothing then |
| Sessions.EnteredFrom | polymkt_bot/markets/session.py:34-40 | From which states each session state can be entered |
| Sessions.MarketSession.SetK | polymkt_bot/markets/session.py:68-72 | Takes a first or older capture and ignores any other |
| Sessions.MarketSession.Settle | polymkt_bot/markets/session.py:90-96 | Resolves UP if and only if the close is at or above K, ties included, and DOWN otherwise; without K changes nothing |
| RolloverOrder.RolloverOrdering | polymkt_bot/engine.py:184-285 | Whenever the current session is active with K set, the session closing at its start, if it ever was current, is done or never had K, for every interleaving of prints with the awaits |
| RolloverOrder.PriceToBeatAgrees | polymkt_bot/engine.py:130-141 | No session transition is ever illegal, and the current and next session's K is the print of smallest oracle time made in their window, or none if none was, while fewer than 16 newer windows have been seen |
| RolloverOrder.StepInv | polymkt_bot/engine.py:184-262 | Every manage_sessions call, resumption and oracle print keeps the rollover invariant |
| RolloverTimes.ManageMeans | polymkt_bot/engine.py:184-215 | A call of manage_sessions by the clock: at the current session's close it starts to close it; before, it keeps it; without one it promotes the next session if that is of the aligned window the time is in, and otherwise goes on to create one; with one in place it prefetches the following window exactly if that opens within the prefetch time and has no session yet |
| RolloverTimes.CreatedMeans | polymkt_bot/engine.py:217-246 | Discovery's answer makes a session of the window the time is in current and active, or one of the window after it the next, with the K stored for that window; without an answer no session changes |
| RolloverOrder.PrintInv | polymkt_bot/engine.py:130-141 | An oracle print at any await keeps it |
| RolloverOrder.PrintSettles | polymkt_bot/engine.py:139-141 | A session waiting for a boundary is settled by the very print that captures it |
| RolloverClose.ClosesAtEarliest | polymkt_bot/engine.py:258-285 | A session is resolved by one step, at the earliest print made in its closing window by then (while fewer than 16 newer windows have been seen), UP if and only if that price is at or above its K, and keeps both; that print is still the earliest at the end of the run if and only if no later print of the window is older |
| RolloverClose.CloseMeetsNextK | polymkt_bot/engine.py:130-141 | The session that follows is judged by that very print if and only if no older one came after the settlement |
| RolloverLate.CloseIsNotNextK | polymkt_bot/engine.py:133-141 | A run of nine steps in which one does: the first session keeps its close price, the second gets another K |
| RolloverClose.DoneForGood | polymkt_bot/engine.py:264-285 | Once done, a session keeps its outcome and close price whatever prints arrive later |
| DeskLaws.SettlesByRule | polymkt_bot/engine.py:264-285 | The rollover step that makes a session done resolves it UP if and only if its close is at or above the K it has, and its trading session then realises its net cash plus one dollar for each share it holds of that side |
| RolloverOrder.HandedOver | polymkt_bot/engine.py:258-262 | After the snapshot a closed session is done, or waits in the settling map for a print not yet seen, or can never settle |
| RolloverOrder.InstallInv | polymkt_bot/engine.py:201-208 | Promotion at the boundary keeps it: the promoted session is newer than every session that was current before |
| Recording.ReadsBack | polymkt_bot/storage/recorder.py:75-112 | Once the writer has stopped, or has drained the queue and written its batch, the files read back as exactly the accepted lines in order, for any batching and rotation, and written counts them |
| Recording.HistoryKept | polymkt_bot/storage/recorder.py:75-101 | At every point, the write of a batch included, what is on disk followed by the batch in flight and by what is ahead of the sentinel is what was accepted |
| Recording.NothingDropped | polymkt_bot/storage/recorder.py:53-58 | With no drops and no stop everything recorded was accepted |
| Recording.OfferedIsKept | polymkt_bot/storage/recorder.py:44-58 | Until a stop is asked for every record offered is accepted or counted as dropped, and never more than 65536 are queued |
| Recording.BatchReadsBack | polymkt_bot/storage/recorder.py:111-111 | The text written for a batch splits back into the very lines of the batch |
| Recording.ObjectsAreClean | polymkt_bot/sim/replayer.py:58-62 | One JSON object on one line survives the text file: neither blank nor touched by stripping |
| Recording.TextsAppend | polymkt_bot/sim/replayer.py:58-62 | Reading an appended file is reading its parts in turn |
| Recording.NameOrderReads | polymkt_bot/sim/replayer.py:53-62 | While file names are equally wide, reading the files in the order of their names is reading them by hour |
| Recording.FileNameMeans | polymkt_bot/storage/recorder.py:104-108 | A file is named by the decimal second, without leading zeros, at which its hour begins |
| Recording.NamesSortByHour | polymkt_bot/sim/replayer.py:53-54 | Of two equally wide file names the earlier hour sorts first |
| Recording.Recorder.Record | polymkt_bot/storage/recorder.py:44-58 | Appends the line to the queue if fewer than 65536 entries are queued, and otherwise drops it and counts the drop |
| Recording.Recorder.Take | polymkt_bot/storage/recorder.py:78-91 | The drain loop takes everything up to the sentinel, in order |
| Recording.Recorder.Land | polymkt_bot/storage/recorder.py:92-101 | The rest of a turn of the writer: the batch written, its count, and the stop |
| Recording.Recorder.WriteBatch | polymkt_bot/storage/recorder.py:103-112 | Appends to the file of the current hour, reopening when the hour or a closed handle demands it |
| Replay.RecordReplay | polymkt_bot/sim/replayer.py:53-98 | With equally wide names, replaying what the writer wrote, stopped or not, is replaying the records it accepted |
| Replay.ReplayIsFaithful | polymkt_bot/sim/replayer.py:68-98 | From any counters and clock, every known frame is delivered once, in order and as recorded but for its mono stamp, which is the running maximum; order_regressions grows by exactly the frames below it, and the wall clock ends at the latest wall stamp |
| Replay.PeakIsMax | polymkt_bot/sim/replayer.py:78-81 | The running maximum is the largest of zero and the stamps so far |
| Replay.Replayer.Apply | polymkt_bot/sim/replayer.py:68-89 | One record: ignored, skipped, or clamped and delivered |
| Replay.Replayer.Run | polymkt_bot/sim/replayer.py:91-98 | The loop over all records, on a replayer that may have run before |
| Replay.VirtualClock.Set | polymkt_bot/clock.py:54-57 | Neither reading goes back, and each is the largest value it was set to |
| Correlation.Pearson | scripts/m1_binance_lead.py:62-81 | The loop returns the two-pass covariance and variances of the non-NaN pairs with cov^2 <= vx * vy, or NaN exactly for fewer than 100 pairs or a zero variance |
| Correlation.OnePass | scripts/m1_binance_lead.py:76-78 | All three one-pass figures are the two-pass centred sums |
| Correlation.CauchySchwarz | scripts/m1_binance_lead.py:76-81 | Variances are never negative and the squared covariance is at most their product |
| Correlation.QuadraticNonNegative | scripts/m1_binance_lead.py:76-81 | The quadratic form behind it is a sum of squares |
| Correlation.LocfGrid | scripts/m1_binance_lead.py:37-49 | The two-index sweep gives each grid time the last observation at or before it, unless stale |
| Correlation.SampleIsLatest | scripts/m1_binance_lead.py:45-48 | For observations in time order that is the latest one |
| ShadowTrading.ManagedOrder.Transition | polymkt_bot/exec/order_manager.py:114-126 | Moves along VALID_TRANSITIONS and raises otherwise, changing nothing then |
| ShadowTrading.ManagedOrder.SignAndSend | polymkt_bot/exec/order_manager.py:187-192 | Succeeds exactly for a draft |
| ShadowTrading.ManagedOrder.TakeFill | polymkt_bot/exec/order_manager.py:247-268 | The order's part of apply_fill, including what has changed already when it raises |
| ShadowTrading.OrderManager.Draft | polymkt_bot/exec/order_manager.py:173-185 | Files a new order under a new client id |
| ShadowTrading.OrderManager.Submit | polymkt_bot/exec/order_manager.py:187-213 | On the object state does what Exchange.Submit does on the abstract state |
| ShadowTrading.OrderManager.RequestCancel | polymkt_bot/exec/order_manager.py:216-220 | Does what Exchange.RequestCancel does |
| ShadowTrading.OrderManager.ConfirmCanceled | polymkt_bot/exec/order_manager.py:223-232 | Leaves a terminal order alone, cancels a live one, raises otherwise |
| ShadowTrading.OrderManager.ExpireUnfilled | polymkt_bot/exec/order_manager.py:274-277 | Leaves a terminal order alone, expires a live one, raises otherwise |
| ShadowTrading.OrderManager.ApplyFill | polymkt_bot/exec/order_manager.py:240-272 | Does what Exchange.ApplyFill does, and keeps the ledger balanced with the fills reported so far |
| ShadowTrading.OrderManager.FlagOpenOrders | polymkt_bot/exec/order_manager.py:234-236 | The loop flags exactly the open orders of the session |
| ShadowTrading.OrderManager.CancelAllForSession | polymkt_bot/exec/order_manager.py:234-237 | Does what Exchange.CancelAll does |
| ShadowTrading.ShadowExchange.EmitFill | polymkt_bot/sim/shadow_exchange.py:260-291 | Does what Exchange.EmitFill does, and posts one fill under the next trade number at the given price and size, with the taker's fee on the right side and no fee for a maker |
| ShadowTrading.ShadowExchange.EmitFills | polymkt_bot/sim/shadow_exchange.py:221-222 | The loop emits the quotes in order and stops where one raises; when none does, the journal has grown by one posting a quote, at its price and the fee of that price |
| ShadowTrading.ShadowExchange.TakerFill | polymkt_bot/sim/shadow_exchange.py:197-224 | Does what Exchange.TakerFill does, and when it returns has posted exactly the quotes of the order's walk, each at its own price and fee |
| ShadowTrading.ShadowExchange.RestMaker | polymkt_bot/sim/shadow_exchange.py:226-249 | Does what Exchange.RestMaker does, finding the queue ahead by its loop |
| ShadowTrading.ShadowExchange.Arrive | polymkt_bot/sim/shadow_exchange.py:182-195 | Does what Exchange.Arrive does |
| ShadowTrading.ShadowExchange.ArriveCancel | polymkt_bot/sim/shadow_exchange.py:251-258 | Does what Exchange.ArriveCancel does |
| ShadowTrading.ShadowExchange.ProcessDue | polymkt_bot/sim/shadow_exchange.py:136-153 | Does what Exchange.ProcessDue does: all due places, then all due cancels |
| ShadowTrading.ShadowExchange.TapeOne | polymkt_bot/sim/shadow_exchange.py:158-179 | Does what Exchange.TapeOne does for one resting order: posted is one trade at its own price without a fee if the print counts for it and the queue leaves something, and nothing otherwise |
| ShadowTrading.ShadowExchange.OnTrade | polymkt_bot/sim/shadow_exchange.py:155-179 | Does what Exchange.OnTrade does over the orders resting at the start; what each of them gets is Executions.TapePosts |
| ShadowTrading.ShadowExchange.CancelAll | polymkt_bot/sim/shadow_exchange.py:127-134 | Asks for the cancels of the session's resting, then pending orders |
| ShadowTrading.PnlLedger.ApplyFill | polymkt_bot/accounting/pnl.py:96-97 | Posts a fill to its session's book |
| ShadowTrading.PnlLedger.Redeem | polymkt_bot/accounting/pnl.py:48-66 | The settlement loop adds up what the specification adds up |
| ShadowTrading.PnlLedger.SettleSession | polymkt_bot/accounting/pnl.py:99-104 | Realises the session's net cash plus its positive winning balance, adds it to the window's day, and leaves every position alone |

## Left out

- Session rollover, gates and intents in the engine are modelled on values, step by step between awaits, not as an object
  updated in place: aliasing between the engine's references to a session is not captured.
- `_PendingPlace`, `_PendingCancel` and `_RestingMaker` refer to orders by client id, and resting entries, session books
  and token positions are values in fields of their owners rather than objects of their own.
- The process-wide client id counter: ids are positions in one order manager's list.
- Time stamps on orders and fills, latency samples and log output.
- RTT sampling: due times are inputs; `cancel_all` takes one sampled delay per order.
- `fee_buy_in_shares=False`: with it `Fill.usdc_delta` would ignore the fee on buys.
- A market without a fee model is in the specification (the order expires), but lawful runs draft only where fees are
  known, as the gate demands.
- Price texts that do not parse as numbers: a level always has a price. In the code they leave a book dirty.
- REST resync, subscription, websocket lifecycle, discovery, SQLite, NTP, dashboard, command line, reports: input and output.
- `LiveClobExchange` and `ClobUserFeed`: wrappers over a client that is not part of this model; `FillDelivery` covers
  what arbitrary fill events do to an order.
- `FairValueModel`, `EwmaVol`, `norm_cdf`: floating-point models; their outputs are arbitrary inputs to the sniper and gates.
- `ScalperStrategy`, `MakerStrategy`: the loss bound, conservation and settlement hold for any source of buy and sell
  intents at any sizes. The scalper sells its shares net of fees, which are off the lot grid, so `TradingInvariant` and
  what rests on it (no illegal transition, teardown, finality, the maker queue) do not speak of runs with its exits; the
  daily budget is about the sniper.
- Risk.RiskManager.Kill: the class latches the flag; what the handler it calls does to the orders is `Kill.KillEnds`. That
  the engine stops after a kill is not modelled.
- Open exposure and its gate: the figure is an arbitrary input of the gates.
- Floating-point rounding: arithmetic is exact, and rounding to hundredths is half to even.
- Square root in the correlation: its quotient is represented by numerator and squared denominator.
- JSON encoding: any codec that writes one object a line and loses nothing.
- File names of different widths, which sort by hour no longer.
- The look-up after a session's snapshot finds its boundary among the 16 newest windows.
- The seconds of a negative timestamp truncate toward zero as in the code; the clock of `manage_sessions` starts at zero.
