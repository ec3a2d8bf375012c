/** Runs of the manager built from the order classes: a fresh manager, a few
    sends and a few bars, with the market position and the events they must
    end with.  Prices are only compared, so each bar sets just the low or the
    high that the test looks at; its other fields are zero. */
module StrategyScenarios {
  import opened Errors
  import opened Orders
  import opened Positions
  import opened Instruments
  import opened Strategy
  import opened StrategyProperties
  import MarketOrder
  import LimitOrder

  /** Lots that are not user-specified, so every send has the default size. */
  const DefaultLots: Contracts := Contracts(0, 0, false)

  function Parameters(action: OrderAction): OrderParameters
  {
    OrderParameters("", action, FromAll, DefaultLots)
  }

  /** What a market order for `action` sends. */
  function MarketSent(action: OrderAction): OrderInfo
  {
    MarketOrder.Send(MarketOrder.New(Parameters(action), false))
  }

  /** What a limit order for `action` sends at `price`. */
  function LimitSent(action: OrderAction, price: real): OrderInfo
    requires price > 0.0
  {
    LimitOrder.Send(LimitOrder.New(Parameters(action), false), price).value
  }

  function LowBar(low: real): Bar
  {
    Bar(0, 0.0, low, 0.0, 0.0, 0.0, Historic)
  }

  function HighBar(high: real): Bar
  {
    Bar(0, high, 0.0, 0.0, 0.0, 0.0, Historic)
  }

  /** A market buy fills at once; after a second buy, a sell that closes all
      brings the position back to zero. */
  method MarketOrdersMovePosition() returns (afterBuy: int, afterClose: int)
    ensures afterBuy == 100 && afterClose == 0
  {
    var buy, sell := MarketSent(Buy), MarketSent(Sell);
    assert buy.size == 100 && buy.order.category == Market && sell.orderExit.exitType == All;
    var manager := new StrategyManager(false);
    ghost var s := manager.State();
    var r := manager.OnOrderSent(buy);
    MarketOrderFillsOnSubmit(s, buy);
    afterBuy := manager.marketPosition;
    s := manager.State();
    assert s.longLots == [100] && s.shortLots == [];
    r := manager.OnOrderSent(buy);
    MarketOrderFillsOnSubmit(s, buy);
    s := manager.State();
    assert s.longLots == [100, 100] && s.shortLots == [];
    r := manager.OnOrderSent(sell);
    MarketOrderFillsOnSubmit(s, sell);
    afterClose := manager.marketPosition;
  }

  /** Sending an opening order that is not a market order: it joins the
      validated set and the queue, and is announced unless already
      validated. */
  method SendQueued(manager: StrategyManager, order: OrderInfo)
    requires manager.Valid()
    requires order.order.category != Market && order.orderAction in {Buy, SellShort}
    modifies manager, manager.longPosition, manager.shortPosition
    ensures manager.Valid()
    ensures manager.validatedOrders == old(manager.validatedOrders) + {order}
    ensures manager.untriggeredOrders == old(manager.untriggeredOrders) + {order}
    ensures manager.previousSubmittedOrders == old(manager.previousSubmittedOrders)
    ensures manager.marketPosition == old(manager.marketPosition)
    ensures manager.longPosition.positions == old(manager.longPosition.positions)
    ensures manager.shortPosition.positions == old(manager.shortPosition.positions)
    ensures manager.validatedEvents
            == old(manager.validatedEvents) + if order in old(manager.validatedOrders) then [] else [order]
    ensures manager.canceledEvents == old(manager.canceledEvents)
  {
    var r := manager.OnOrderSent(order);
  }

  /** A bar that the only queued order does not cross: the order waits in
      the previous set, and nothing is canceled. */
  method BarMisses(manager: StrategyManager, order: OrderInfo, bar: Bar)
    requires manager.Valid() && !manager.stopLimitIsPriced
    requires manager.untriggeredOrders == {order} && manager.previousSubmittedOrders <= {order}
    requires Crosses(order, bar, false) == Ok(false)
    modifies manager, manager.longPosition, manager.shortPosition
    ensures manager.Valid()
    ensures manager.validatedOrders == old(manager.validatedOrders)
    ensures manager.untriggeredOrders == {} && manager.previousSubmittedOrders == {order}
    ensures manager.marketPosition == old(manager.marketPosition)
    ensures manager.longPosition.positions == old(manager.longPosition.positions)
    ensures manager.shortPosition.positions == old(manager.shortPosition.positions)
    ensures manager.validatedEvents == old(manager.validatedEvents)
    ensures manager.canceledEvents == old(manager.canceledEvents)
  {
    ghost var s := manager.State();
    var r, visited := manager.TriggerOrders(bar);
    SingleOrderPass(s, bar, visited, order, false);
    ListingOfNone(manager.canceledEvents[|old(manager.canceledEvents)|..]);
  }

  /** A bar that the only queued order, an opening order, crosses: its
      book takes one lot of its size, the market position moves by that
      size, the order leaves every set, and nothing is canceled. */
  method BarFills(manager: StrategyManager, order: OrderInfo, bar: Bar)
    requires manager.Valid() && !manager.stopLimitIsPriced
    requires manager.untriggeredOrders == {order} && manager.previousSubmittedOrders <= {order}
    requires order.orderAction in {Buy, SellShort}
    requires Crosses(order, bar, false) == Ok(true)
    modifies manager, manager.longPosition, manager.shortPosition
    ensures manager.Valid()
    ensures manager.validatedOrders == old(manager.validatedOrders) - {order}
    ensures manager.untriggeredOrders == {} && manager.previousSubmittedOrders == {}
    ensures order.orderAction == Buy ==>
              manager.longPosition.positions == old(manager.longPosition.positions) + [order.size]
              && manager.shortPosition.positions == old(manager.shortPosition.positions)
    ensures order.orderAction == SellShort ==>
              manager.shortPosition.positions == old(manager.shortPosition.positions) + [order.size]
              && manager.longPosition.positions == old(manager.longPosition.positions)
    ensures manager.marketPosition == NetSize(manager.State())
    ensures manager.validatedEvents == old(manager.validatedEvents)
    ensures manager.canceledEvents == old(manager.canceledEvents)
  {
    ghost var s := manager.State();
    ghost var filled := Fill(s, order);
    assert filled.outcome == Pass && filled.state.untriggered == {} && filled.state.previous == {};
    var r, visited := manager.TriggerOrders(bar);
    SingleOrderPass(s, bar, visited, order, false);
    assert manager.State() == filled.state.(previous := {}, untriggered := {});
    ListingOfNone(manager.canceledEvents[|old(manager.canceledEvents)|..]);
  }

  /** A bar with nothing queued: the books stay, and each order pending
      from the previous bar is canceled once. */
  method BarLapses(manager: StrategyManager, bar: Bar) returns (ghost lapsed: seq<OrderInfo>)
    requires manager.Valid() && manager.untriggeredOrders == {}
    modifies manager, manager.longPosition, manager.shortPosition
    ensures manager.Valid()
    ensures manager.validatedOrders == old(manager.validatedOrders)
    ensures manager.untriggeredOrders == {} && manager.previousSubmittedOrders == {}
    ensures manager.marketPosition == old(manager.marketPosition)
    ensures manager.longPosition.positions == old(manager.longPosition.positions)
    ensures manager.shortPosition.positions == old(manager.shortPosition.positions)
    ensures Enumerates(lapsed, old(manager.previousSubmittedOrders))
    ensures manager.validatedEvents == old(manager.validatedEvents)
    ensures manager.canceledEvents == old(manager.canceledEvents) + lapsed
  {
    ghost var s := manager.State();
    var r, visited := manager.TriggerOrders(bar);
    LapseLeavesPosition(s, bar, visited, manager.stopLimitIsPriced);
    lapsed := manager.canceledEvents[|old(manager.canceledEvents)|..];
  }

  /** A limit buy at 40 is not filled when sent nor on a bar whose low is 50;
      sent again, it fills on a bar whose low is 39, and only once. */
  method LimitBuyFillsOnce() returns (afterSend: int, notReached: int, reached: int, nextBar: int)
    ensures afterSend == 0 && notReached == 0 && reached == 100 && nextBar == 100
  {
    var order := LimitSent(Buy, 40.0);
    assert order.orderAction == Buy && order.size == 100 && order.order.category == Limit
           && order.price == 40.0 && order.conditionPrice == 0.0;
    var manager := new StrategyManager(false);
    SendQueued(manager, order);
    afterSend := manager.marketPosition;
    BarMisses(manager, order, LowBar(50.0));
    notReached := manager.marketPosition;
    SendQueued(manager, order);
    assert manager.longPosition.positions == [] && manager.shortPosition.positions == [];
    assert Crosses(order, LowBar(39.0), false) == Ok(true);
    BarFills(manager, order, LowBar(39.0));
    assert manager.longPosition.positions == [100] && manager.shortPosition.positions == [];
    assert [100][..0] == [] && Sum([100]) == 100 && Sum([]) == 0;
    assert NetSize(manager.State()) == 100;
    reached := manager.marketPosition;
    ghost var lapsed := BarLapses(manager, LowBar(39.0));
    nextBar := manager.marketPosition;
  }

  /** A short sale limit at 40 is not filled on a bar whose high is 39;
      sent again, it fills on a bar whose high is 41, going short 100. */
  method LimitShortFills() returns (notReached: int, reached: int)
    ensures notReached == 0 && reached == -100
  {
    var order := LimitSent(SellShort, 40.0);
    assert order.orderAction == SellShort && order.size == 100 && order.order.category == Limit
           && order.price == 40.0 && order.conditionPrice == 0.0;
    var manager := new StrategyManager(false);
    SendQueued(manager, order);
    BarMisses(manager, order, HighBar(39.0));
    notReached := manager.marketPosition;
    SendQueued(manager, order);
    assert manager.longPosition.positions == [] && manager.shortPosition.positions == [];
    assert Crosses(order, HighBar(41.0), false) == Ok(true);
    BarFills(manager, order, HighBar(41.0));
    assert manager.shortPosition.positions == [100] && manager.longPosition.positions == [];
    assert [100][..0] == [] && Sum([100]) == 100 && Sum([]) == 0;
    assert NetSize(manager.State()) == -100;
    reached := manager.marketPosition;
  }

  /** A limit buy at 20 that is not sent again after a bar whose low is 21
      is canceled on the next bar, and is not filled although that bar's low
      is 19; it was announced once and canceled once. */
  method UnsentLimitOrderLapses() returns (position: int, ghost validated: seq<OrderInfo>,
                                          ghost canceled: seq<OrderInfo>)
    ensures position == 0
    ensures validated == [LimitSent(Buy, 20.0)] && canceled == [LimitSent(Buy, 20.0)]
  {
    var order := LimitSent(Buy, 20.0);
    assert order.orderAction == Buy && order.size == 100 && order.order.category == Limit
           && order.price == 20.0 && order.conditionPrice == 0.0;
    var manager := new StrategyManager(false);
    SendQueued(manager, order);
    BarMisses(manager, order, LowBar(21.0));
    ghost var lapsed := BarLapses(manager, LowBar(19.0));
    ListingOfOne(lapsed, order);
    position := manager.marketPosition;
    validated := manager.validatedEvents;
    canceled := manager.canceledEvents;
  }

  /** Sending one limit order twice announces it once; once it has filled,
      sending it again announces it again. */
  method ValidatedOncePerPendingValue() returns (position: int, ghost beforeFill: seq<OrderInfo>,
                                                ghost afterResend: seq<OrderInfo>)
    ensures position == 100
    ensures beforeFill == [LimitSent(Buy, 20.0)]
    ensures afterResend == [LimitSent(Buy, 20.0), LimitSent(Buy, 20.0)]
  {
    var order := LimitSent(Buy, 20.0);
    assert order.orderAction == Buy && order.size == 100 && order.order.category == Limit
           && order.price == 20.0 && order.conditionPrice == 0.0;
    var manager := new StrategyManager(false);
    SendQueued(manager, order);
    SendQueued(manager, order);
    beforeFill := manager.validatedEvents;
    assert manager.longPosition.positions == [] && manager.shortPosition.positions == [];
    assert Crosses(order, LowBar(19.0), false) == Ok(true);
    BarFills(manager, order, LowBar(19.0));
    assert manager.longPosition.positions == [100] && manager.shortPosition.positions == [];
    assert [100][..0] == [] && Sum([100]) == 100 && Sum([]) == 0;
    assert NetSize(manager.State()) == 100;
    position := manager.marketPosition;
    SendQueued(manager, order);
    afterResend := manager.validatedEvents;
  }

  /** A limit order sent again on every bar is neither canceled nor announced
      again; the first bar on which it is not sent cancels it. */
  method ResentOrderStaysPending() returns (position: int, ghost validated: seq<OrderInfo>,
                                           ghost canceledWhileSent: seq<OrderInfo>,
                                           ghost canceledAfter: seq<OrderInfo>)
    ensures position == 0
    ensures validated == [LimitSent(Buy, 20.0)]
    ensures canceledWhileSent == [] && canceledAfter == [LimitSent(Buy, 20.0)]
  {
    var order := LimitSent(Buy, 20.0);
    assert order.orderAction == Buy && order.size == 100 && order.order.category == Limit
           && order.price == 20.0 && order.conditionPrice == 0.0;
    var manager := new StrategyManager(false);
    SendQueued(manager, order);
    BarMisses(manager, order, LowBar(21.0));
    SendQueued(manager, order);
    BarMisses(manager, order, LowBar(22.0));
    canceledWhileSent := manager.canceledEvents;
    validated := manager.validatedEvents;
    ghost var lapsed := BarLapses(manager, LowBar(23.0));
    ListingOfOne(lapsed, order);
    canceledAfter := manager.canceledEvents;
    position := manager.marketPosition;
  }
}
