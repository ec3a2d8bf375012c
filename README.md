# MCRunner order engine, modelled in Dafny

MCRunner runs trading strategies against a stream of price bars. This project
models its order-state machine and position accounting, and the order and bar
layers under them:

- `StrategyManager` validates each sent order against the book of its side.
  It announces each order value once while it is pending (`OrderValidated`).
  It fills market orders at once and queues the others. On each bar it fills
  the queued orders whose price crosses the bar, reports as canceled the orders
  that were pending on the previous bar but were not sent again
  (`OrderCanceled`), and rotates its pending sets.
- `LongPosition` and `ShortPosition` are the two books. A book is a list of lot
  sizes. It grows by one lot per opening fill and is cleared by a "close all"
  fill.
- `BaseOrder` and the four order classes (`MarketOrder`, `LimitOrder`,
  `StopOrder`, `StopLimitOrder`) build the `OrderInfo` snapshot that a `Send`
  emits, or raise a range error. `Extensions.GetSize` resolves the lot count.
- `Bars`, `LoadableBars` and `BarSeries` form an append-only list of bars. It
  is read by "bars ago", where 0 is the newest bar.

Files and modules:

| file | module | models |
|---|---|---|
| errors.dfy | `Errors` | the exceptions the core raises, as `Error`; `Option`, `Result`, `Outcome` |
| orders.dfy | `Orders` | the platform's order types, reduced to the fields read here; `OrderInfo` |
| extensions.dfy | `Extensions` | `GetSize` |
| base_order.dfy | `BaseOrder` | the order constructor, order-object equality, the emitted snapshot |
| market_order.dfy, limit_order.dfy, stop_order.dfy, stop_limit_order.dfy | one module each | the `Send` overloads |
| positions.dfy | `Positions` | both books: spec functions `Validate`/`Update` and the class `Position` |
| instruments.dfy | `Instruments` | `Bar`, `BarSeries`, and the class `Bars` with `AddBar` |
| strategy_manager.dfy | `Strategy` | spec functions on `ManagerState` and the class `StrategyManager` |
| strategy_properties.dfy | `StrategyProperties` | lemmas about sending, the fill pass and whole bars |
| scenarios.dfy | `StrategyScenarios` | runs of the class that follow the manager's unit tests |

How the manager is modelled:

- The three pending sets are `set<OrderInfo>`. `OrderInfo` is a struct, and the
  sets compare it field by field: prices and size included, and the
  originating order through `BaseOrder.Equals`. In the model, `OrderInfo.order`
  is an `OrderKey` that holds exactly the fields `Equals` compares. The
  category stands for the runtime class. So Dafny's equality on `OrderInfo` is
  the equality the sets use.
- Each step is first a function on a value `ManagerState`: `Submit`, `Fill`,
  `FillPass`, `TriggerBar`. The class methods change the fields in place. Each
  method's `ensures` equates the new `State()` and outcome with that function
  applied to the old state. The two events are ghost sequences on the class,
  appended in the order they are raised.
- `TriggerOrders` enumerates a hash set, so the order of visits is decided by
  the runtime. The method takes pending orders in an unspecified order
  (`:|`). It returns that order as a ghost sequence `visited`, and
  `TriggerBar` is stated for any such order.
- A raise stops the method with the state reached so far. In `TriggerOrders`,
  a raise leaves that bar's cancel loop and rotation undone.
- Whether a stop-limit order is accepted by the fill test depends on the
  platform's interface hierarchy, which is not part of this model. It is the
  constructor flag `stopLimitIsPriced`.

Three behaviours of the code are easy to miss. The model has each of them:

- A canceled order is not removed from `validatedOrders`. So sending it again
  raises no new `OrderValidated` (`ResendAfterLapseIsSilent`). Only a fill
  removes an order from that set.
- The pending sets are keyed by the whole `OrderInfo`, not by the order's
  identity alone. Two sends that differ only in price are two pending entries
  (`PriceDistinguishesPending`). Sending at a new price lets the old entry
  lapse.
- An order sent before bar N and not sent again is reported canceled on bar
  N+1. On bar N it only moves to the previous set
  (`UnsentLimitOrderLapses`).

## Model

| member | source | states |
|---|---|---|
| `Extensions.GetSize` | MCRunner/Extensions.cs:41-51 | the size is 100 unless the lots are user-specified, and then it is the contract count |
| `Extensions.GetSizeWithLots` | MCRunner/Extensions.cs:59-69 | a user-specified lot count wins; otherwise the count is ignored and the size is `GetSize`, which is 100 |
| `Extensions.LotsIgnoredByDefault` | MCRunner/Extensions.cs:59-69 | without user-specified lots, any two lot counts give the same size |
| `BaseOrder.New` | MCRunner/Orders/BaseOrder.cs:38-50 | the parameters are kept unchanged; the descriptor records the name, action, lots, exit, the given category and the open-next flag |
| `BaseOrder.Equals` | MCRunner/Orders/BaseOrder.cs:58-78 | false for null and for another class; otherwise true iff name, action, exit, contract count, lot type, category and open-next agree; prices and sizes never take part |
| `BaseOrder.EqualsIsAnEquivalence` | MCRunner/Orders/BaseOrder.cs:58-78 | order equality is reflexive, symmetric and transitive |
| `BaseOrder.EqualsIgnoresUserSpecifiedFlag` | MCRunner/Orders/BaseOrder.cs:65-74 | two orders whose lots differ only in the user-specified flag are equal |
| `BaseOrder.Emit` | MCRunner/Orders/BaseOrder.cs:93-96 | the emitted snapshot carries the order's own action and exit, the given prices and size, and the order itself |
| `BaseOrder.SendByName` | MCRunner/Orders/MarketOrder.cs:62-90 | the renaming and exit-from-entry overloads always raise NotImplemented |
| `MarketOrder.New` | MCRunner/Orders/MarketOrder.cs:17-20 | a market order has category Market and keeps its parameters |
| `MarketOrder.Send` | MCRunner/Orders/MarketOrder.cs:25-34 | the snapshot has both prices 0, the parameters' action and exit, and the size `GetSize` gives |
| `MarketOrder.SendLots` | MCRunner/Orders/MarketOrder.cs:40-60 | a negative count raises ArgumentOutOfRange; 0 is `Send()`; a positive count changes only the size, to `GetSize(numLots)` |
| `LimitOrder.New` | MCRunner/Orders/LimitOrder.cs:17-20 | a limit order has category Limit |
| `LimitOrder.Send` | MCRunner/Orders/LimitOrder.cs:26-40 | a price that is not positive raises ArgumentOutOfRange; otherwise price = the price, condition price 0, default size |
| `LimitOrder.SendLots` | MCRunner/Orders/LimitOrder.cs:48-74 | the price is checked before the count; a negative count raises; 0 is `Send(price)`; a positive count changes only the size |
| `StopOrder.New` | MCRunner/Orders/StopOrder.cs:17-20 | a stop order has category Stop |
| `StopOrder.Send` | MCRunner/Orders/StopOrder.cs:26-40 | a price that is not positive raises; otherwise condition price = the price and price 0 |
| `StopOrder.SendLots` | MCRunner/Orders/StopOrder.cs:48-74 | the price is checked before the count; a negative count raises; 0 is `Send(price)`; a positive count changes only the size |
| `StopLimitOrder.New` | MCRunner/Orders/StopLimitOrder.cs:17-20 | a stop-limit order has category StopLimit |
| `StopLimitOrder.Send` | MCRunner/Orders/StopLimitOrder.cs:27-48 | a bad stop price is reported before a bad limit price; otherwise condition price = stop and price = limit |
| `StopLimitOrder.SendLots` | MCRunner/Orders/StopLimitOrder.cs:56-88 | both prices are checked before the count; a negative count raises; 0 is the two-price `Send`; a positive count changes only the size |
| `Positions.Validate` | MCRunner/Positions/LongPosition.cs:31-55 | passes iff the action opens this book, or closes it with "close all" while it holds lots; an empty book is reported before a wrong exit, an action of the other book is refused; the short book is the same with SellShort and BuyToCover |
| `Positions.Update` | MCRunner/Positions/LongPosition.cs:61-108 | an opening fill appends one lot of the order's size and raises the sum by that size; a closing fill on an empty book raises InvalidOperation; "close all" clears the book; another exit raises NotImplemented; another action raises Argument |
| `Positions.ValidatedUpdateSucceeds` | MCRunner/Positions/LongPosition.cs:31-55 | every order the book accepts can be applied to it unchanged |
| `Positions.OpenThenCloseIsFlat` | MCRunner/Positions/LongPosition.cs:82-108 | after any opening fills, a "close all" is accepted and leaves the book empty, its size back at zero |
| `Positions.Position.constructor` | MCRunner/Positions/LongPosition.cs:25 | a new book holds no lots |
| `Positions.Position.UpdatePosition` | MCRunner/Positions/LongPosition.cs:61-76 | the lots afterwards are those `Update` gives; on a raise they are unchanged |
| `Positions.Position.OpenPosition` | MCRunner/Positions/LongPosition.cs:82-85 | appends exactly one lot of the order's size |
| `Positions.Position.ClosePosition` | MCRunner/Positions/LongPosition.cs:91-108 | an empty book raises InvalidOperation; "close all" clears it; another exit raises NotImplemented and changes nothing |
| `Instruments.NewSeries` | MCRunner/Instruments/BarSeries.cs:67-89 | no list raises ArgumentNull; a name that is not a field, or a field of another type, raises Argument; otherwise the series reads that field of the list |
| `Instruments.At` | MCRunner/Instruments/BarSeries.cs:26-49 | succeeds iff 0 <= barsAgo < count, with the field of bar count-1-barsAgo; otherwise IndexOutOfRange |
| `Instruments.Value` | MCRunner/Instruments/BarSeries.cs:54-60 | the field of the newest bar; an empty list raises IndexOutOfRange |
| `Instruments.AppendShiftsBarsAgo` | MCRunner/Instruments/LoadableBars.cs:12-16 | after an append, 0 bars ago is the new bar and every older bar is one further back |
| `Instruments.CurrentBarOf` | MCRunner/Instruments/Bars.cs:15-27 | count-1; an empty list raises IndexOutOfRange |
| `Instruments.CurrentValueOf` | MCRunner/Instruments/Bars.cs:43-96 | each value accessor, and `TimeValue` at lines 118-124, is that field of the newest bar; an empty list raises IndexOutOfRange |
| `Instruments.LastBarTimeOf` | MCRunner/Instruments/Bars.cs:129-141 | the time of bar count-2; fewer than two bars raise IndexOutOfRange |
| `Instruments.FieldNamesResolve` | MCRunner/Instruments/BarSeries.cs:75-82 | each of the six field names finds its field; `BarType` finds a field of no series type; another name finds nothing |
| `Instruments.SeriesAgreesWithCurrentValue` | MCRunner/Instruments/BarSeries.cs:54-60 | a series' `Value` over a list reads what the newest-bar accessor of its field reads, including the raise on an empty list |
| `Instruments.Bars.constructor` | MCRunner/Instruments/Bars.cs:279-282 | a new chart has no bars and its series are loaded |
| `Instruments.Bars.ReloadBarSeries` | MCRunner/Instruments/Bars.cs:299-307 | the six series are rebuilt through the checked series constructor, none of which raises, and each reads its field of the current list; the list is unchanged |
| `Instruments.ReloadedSeriesAgree` | MCRunner/Instruments/Bars.cs:299-307 | once the series are reloaded, each series' `Value` equals the newest-bar accessor of its field |
| `Instruments.Bars.AddBar` | MCRunner/Instruments/LoadableBars.cs:12-16 | appends exactly one bar; the current bar moves up by one and every accessor and series reads the new bar |
| `Instruments.LoadFiveBars` | MCRunner/Instruments/LoadableBars.cs:12-16 | five adds give current bar 4; high of the last bar through accessor and series; low of the first bar 4 bars ago |
| `Strategy.Validation` | MCRunner/Strategy/StrategyManager.cs:179-196 | the book of the order's side decides: opening orders pass, closing orders pass only as "close all" on a non-empty book; refusals are InvalidOrder |
| `Strategy.Crosses` | MCRunner/Strategy/StrategyManager.cs:77-110 | an unpriced order raises Argument; otherwise the test price is the condition price if positive, else the price, and a buy or cover fills iff it is >= the low, a sell or short sale iff it is <= the high |
| `Strategy.Fill` | MCRunner/Strategy/StrategyManager.cs:149-173 | the fill passes iff the order's book accepts the update, and raises the book's error otherwise, changing nothing; on a pass that book holds the lots `Update` gives, the other book is unchanged, the order leaves all three sets and the market position is long size minus short size; the invariant is kept |
| `Strategy.Submit` | MCRunner/Strategy/StrategyManager.cs:132-143 | a refused order raises InvalidOrder and changes nothing and announces nothing; an accepted one is announced iff its value is not already validated and joins the validated set; then an accepted market order is filled as `Fill` says, and any other is added to the queue with nothing else changed; a fill after acceptance never raises |
| `Strategy.FailedPassIgnoresRest` | MCRunner/Strategy/StrategyManager.cs:75-111 | once the fill pass has raised, the orders after the raising one make no difference |
| `Strategy.StrategyManager.constructor` | MCRunner/Strategy/StrategyManager.cs:25-33 | a new manager has empty sets, empty books, market position 0 and no events |
| `Strategy.StrategyManager.ValidateOrder` | MCRunner/Strategy/StrategyManager.cs:179-196 | validation through the book object of the order's side agrees with `Validation` on the manager's state |
| `Strategy.StrategyManager.OnOrderSent` | MCRunner/Strategy/StrategyManager.cs:132-143 | the new state, outcome and `OrderValidated` events are those of `Submit` |
| `Strategy.StrategyManager.CheckIfOrderTriggered` | MCRunner/Strategy/StrategyManager.cs:202-212 | a market order is filled as `Fill` says; any other order is added to the queue |
| `Strategy.StrategyManager.OnOrderTriggered` | MCRunner/Strategy/StrategyManager.cs:149-173 | the new state and outcome are those of `Fill` |
| `Strategy.StrategyManager.TriggerOrders` | MCRunner/Strategy/StrategyManager.cs:73-125 | visits each queued order once; the new state and outcome are those of `TriggerBar`; the new `OrderCanceled` events list the canceled set, each order once |
| `Strategy.StrategyManager.FillQueued` | MCRunner/Strategy/StrategyManager.cs:75-111 | visits each queued order once, over a snapshot of the queue, with the result of `FillPass` over that order of visits |
| `Strategy.StrategyManager.TriggerIfCrossed` | MCRunner/Strategy/StrategyManager.cs:77-110 | one queued order is tested and filled as `Evaluate` says |
| `Strategy.StrategyManager.ReportLapsed` | MCRunner/Strategy/StrategyManager.cs:115-121 | raises `OrderCanceled` once for each order of the previous set not in the queue, and changes no other state |
| `StrategyProperties.ResendIsIdempotent` | MCRunner/Strategy/StrategyManager.cs:136-142 | sending an equal non-market order again changes nothing and announces nothing |
| `StrategyProperties.MarketOrderFillsOnSubmit` | MCRunner/Strategy/StrategyManager.cs:202-207 | an accepted market order is filled during the send: its book takes it, the other book is untouched, it is in no set, the position is the net size |
| `StrategyProperties.OpeningFillMovesPosition` | MCRunner/Strategy/StrategyManager.cs:38-44 | a market buy raises the position by its size, a market short sale lowers it by its size |
| `StrategyProperties.PriceDistinguishesPending` | MCRunner/Strategy/StrategyManager.cs:25-30 | two sends of one limit order at different prices are distinct pending entries, each announced, although their order objects are equal |
| `StrategyProperties.FillPassKeepsConsistent` | MCRunner/Strategy/StrategyManager.cs:75-111 | the fill pass keeps position = long size - short size and pending orders validated, whether or not it raises |
| `StrategyProperties.CompletedPassFillsCrossing` | MCRunner/Strategy/StrategyManager.cs:75-111 | a pass that does not raise has tested every visited order and removed from every set exactly the visited orders that cross |
| `StrategyProperties.CompletedPassUpdatesBooks` | MCRunner/Strategy/StrategyManager.cs:75-111 | after a fill pass that does not raise, each book is what applying its own update, in visiting order, to its crossing orders gives |
| `StrategyProperties.SecondCloseOnSameBarFails` | MCRunner/Positions/LongPosition.cs:91-97 | two "close all" orders of one book both pass validation, but when both cross one bar the second fill raises InvalidOperation on the emptied book |
| `StrategyProperties.TriggerRotation` | MCRunner/Strategy/StrategyManager.cs:113-124 | after a bar that does not raise: the queue is empty; the previous set is the queued orders that did not cross; crossed orders leave the validated set; the canceled set is exactly previous minus queued, none of them tested |
| `StrategyProperties.TriggerBarKeepsConsistent` | MCRunner/Strategy/StrategyManager.cs:73-125 | every bar keeps the invariant |
| `StrategyProperties.LapseLeavesPosition` | MCRunner/Strategy/StrategyManager.cs:113-124 | a bar with nothing sent again fills nothing, leaves books and position unchanged, and cancels all that was pending |
| `StrategyProperties.OthersLeaveOrderOut` | MCRunner/Strategy/StrategyManager.cs:132-143 | sending any number of other orders never puts an order into the validated, queued or previous set |
| `StrategyProperties.FilledOrderNeverFillsAgain` | MCRunner/Strategy/StrategyManager.cs:169-172 | a filled order is in no set afterwards, and whatever other orders are sent before the next bar, it is not visited on that bar |
| `StrategyProperties.ResendAfterFillIsAnnounced` | MCRunner/Strategy/StrategyManager.cs:170 | sending a filled order again raises `OrderValidated` again |
| `StrategyProperties.ResendAfterLapseIsSilent` | MCRunner/Strategy/StrategyManager.cs:115-124 | a canceled order stays validated, so sending it again raises no `OrderValidated` |
| `StrategyProperties.TriggerPriceOfSends` | MCRunner/Strategy/StrategyManager.cs:77-83 | the fill test uses a limit order's price, a stop order's stop price and a stop-limit order's stop price; a market order is refused |
| `StrategyScenarios.MarketOrdersMovePosition` | Tests/Strategy/StrategyManagerTest.cs:21-49 | a market buy gives position 100; buy, buy, then sell-all gives 0 |
| `StrategyScenarios.LimitBuyFillsOnce` | Tests/Strategy/StrategyManagerTest.cs:51-97 | a limit buy at 40 is not filled when sent or at low 50; sent again, it fills at low 39 to 100, and only once |
| `StrategyScenarios.LimitShortFills` | Tests/Strategy/StrategyManagerTest.cs:112-134 | a short limit at 40 is not filled at high 39; sent again, it fills at high 41 to -100 |
| `StrategyScenarios.UnsentLimitOrderLapses` | Tests/Strategy/StrategyManagerTest.cs:191-208 | an order not sent again is canceled once on the following bar and is not filled there although the low is below its price |
| `StrategyScenarios.ValidatedOncePerPendingValue` | Tests/Strategy/StrategyManagerTest.cs:150-189 | two sends announce once; after the fill, a third send announces again |
| `StrategyScenarios.ResentOrderStaysPending` | Tests/Strategy/StrategyManagerTest.cs:210-233 | an order sent on every bar is neither canceled nor announced again; the first bar without it cancels it |

## Left out

- Event delivery is left out: the multicast events, `SafeTrigger`, subscribers and their exceptions. A `Send` returns its snapshot, and the manager records its two events in ghost sequences.
- `OrderCreator`, the trading and strategy runners, `PlayableBars`, `MonitoredBars` and console output are not part of this model. They only wire the core together or do I/O.
- `StrategyPerformance` is left out except its `MarketPosition`, which is a field of the manager.
- `BaseOrder.GetHashCode` and the order `ID` depend on the platform's hashing. Nothing in the core reads them.
- Prices, sizes and book sums are `double` in the code, and the manager's `Size` casts the net size to `int`. The model uses `real` prices and unbounded `int` sizes and sums. It assumes that the `double` sums are exact (they are not above 2^53) and that the net size fits in an `int` (the cast loses it otherwise).
- The `default:` branches that raise on an unknown order action cannot be reached. The action type has exactly four values.
- `Instruments.NewSeries` and `Instruments.BarSeries`: a series is fixed to the list value it was built over. The code's series keeps the caller's `IList<Bar>` and reads it live, so it also sees bars appended to a mutable list after construction. The model does not capture that aliasing. `Bars` is not affected: it rebuilds its series over an immutable list on every add.
- The code finds a bar field by reflection, and `BarSeries<T>` can be declared for any `T`. The model uses a field selector and a name table, and allows only the `double` and `DateTime` series the code builds.
- The many `Bars` members that only raise NotImplemented, and `ToSingleDataStream`, are left out.
- The platform's parameter types (`SOrderParameters`, `Contracts`, `OrderExit`, `Order`) keep only the fields the core reads. `OrderExit` is an exit type plus one opaque detail.
- `Positions.Position.Size` and `Strategy.StrategyManager.Size` have no contract of their own. Each is the sum (or difference) it names, and the market position is stated through `Strategy.Fill` and the invariant `Consistent`.
- `LongPosition` and `ShortPosition` are one class `Position` with a `side`. The two classes' code differs only in which actions open and close the book.
