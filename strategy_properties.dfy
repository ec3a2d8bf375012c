/** Properties of the order-state machine.  They are stated on the functions
    of `Strategy`, which the methods of `StrategyManager` are proved to follow,
    so they hold of every run of the manager. */
module StrategyProperties {
  import opened Errors
  import opened Orders
  import opened Positions
  import opened Instruments
  import opened Strategy
  import BaseOrder
  import MarketOrder
  import LimitOrder
  import StopOrder
  import StopLimitOrder

  /** The queued orders whose price crosses the bar. */
  ghost function Crossing(pending: set<OrderInfo>, bar: Bar, stopLimitIsPriced: bool): set<OrderInfo>
  {
    set o | o in pending && Crosses(o, bar, stopLimitIsPriced) == Ok(true)
  }

  /** A listing without repeats is no longer than the set it lists from. */
  lemma {:induction false} DistinctListingBound(visited: seq<OrderInfo>, pending: set<OrderInfo>)
    requires forall i, j :: 0 <= i < j < |visited| ==> visited[i] != visited[j]
    requires forall i :: 0 <= i < |visited| ==> visited[i] in pending
    ensures |visited| <= |pending|
    decreases |visited|
  {
    if visited != [] {
      var last := visited[|visited| - 1];
      var init := visited[..|visited| - 1];
      assert forall i :: 0 <= i < |init| ==> init[i] == visited[i] && init[i] in pending - {last};
      DistinctListingBound(init, pending - {last});
    }
  }

  /** The only listing of nothing is empty. */
  lemma ListingOfNone(visited: seq<OrderInfo>)
    requires Enumerates(visited, {})
    ensures visited == []
  {
    forall o
      ensures multiset(visited)[o] == 0
    {
      assert o !in visited;
    }
    assert multiset(visited) == multiset{};
    assert |visited| == |multiset(visited)| == 0;
  }

  /** The only listing of a single pending order is that order. */
  lemma ListingOfOne(visited: seq<OrderInfo>, order: OrderInfo)
    requires Enumerates(visited, {order})
    ensures visited == [order]
  {
    assert forall i :: 0 <= i < |visited| ==> visited[i] in visited;
    DistinctListingBound(visited, {order});
    assert order in visited;
  }

  /** With a single queued order, the fill pass of a bar is that order's
      evaluation. */
  lemma SingleOrderPass(s: ManagerState, bar: Bar, visited: seq<OrderInfo>, order: OrderInfo,
                        stopLimitIsPriced: bool)
    requires s.untriggered == {order}
    requires Enumerates(visited, s.untriggered)
    ensures visited == [order]
    ensures FillPass(s, bar, visited, stopLimitIsPriced) == Evaluate(s, order, bar, stopLimitIsPriced)
  {
    ListingOfOne(visited, order);
    FillPassExtends(s, bar, [], order, stopLimitIsPriced);
  }

  // ----- Sending

  /** Sending an equal non-market order again changes nothing and raises no
      second `OrderValidated`. */
  lemma ResendIsIdempotent(s: ManagerState, order: OrderInfo)
    requires order.order.category != Market
    requires Submit(s, order).outcome.Pass?
    ensures var first := Submit(s, order);
            Submit(first.state, order) == Submission(Pass, first.state, [])
  {
  }

  /** An accepted market order is filled during the send: its book takes it,
      the other book is untouched, it is left in no set, and the market
      position is the net size of the books. */
  lemma MarketOrderFillsOnSubmit(s: ManagerState, order: OrderInfo)
    requires order.order.category == Market
    requires Validation(s, order).Pass?
    ensures var r := Submit(s, order); var side := SideOf(order.orderAction);
            && r.outcome == Pass
            && order !in r.state.validated && order !in r.state.untriggered && order !in r.state.previous
            && LotsOf(r.state, side) == Update(side, LotsOf(s, side), order).value
            && LotsOf(r.state, OtherSide(side)) == LotsOf(s, OtherSide(side))
            && r.state.marketPosition == NetSize(r.state)
  {
    ValidatedUpdateSucceeds(SideOf(order.orderAction), LotsOf(s, SideOf(order.orderAction)), order);
  }

  /** An accepted opening order moves the market position by its size: up
      for a buy, down for a short sale. */
  lemma OpeningFillMovesPosition(s: ManagerState, order: OrderInfo)
    requires order.order.category == Market
    requires order.orderAction in {Buy, SellShort}
    ensures var r := Submit(s, order);
            r.outcome == Pass
            && r.state.marketPosition == NetSize(s) + (if order.orderAction == Buy then order.size else -order.size)
  {
  }

  /** Two sends of one limit order at different prices are two pending
      entries, each announced once, although the order objects are equal. */
  lemma PriceDistinguishesPending(s: ManagerState, o: OrderObject, p1: real, p2: real)
    requires o.info.category == Limit && p1 > 0.0 && p2 > 0.0 && p1 != p2
    requires Validation(s, LimitOrder.Send(o, p1).value).Pass?
    ensures var a := LimitOrder.Send(o, p1).value; var b := LimitOrder.Send(o, p2).value;
            var first := Submit(s, a); var second := Submit(first.state, b);
            && a != b && a.order == b.order
            && second.outcome == Pass
            && second.state.untriggered == s.untriggered + {a, b}
            && first.validatedEvents + second.validatedEvents
               == (if a in s.validated then [] else [a]) + (if b in s.validated then [] else [b])
  {
    var a := LimitOrder.Send(o, p1).value;
    var b := LimitOrder.Send(o, p2).value;
    assert Validation(Submit(s, a).state, b) == Validation(s, a);
  }

  // ----- The fill pass

  /** The fill pass keeps the invariant, whether or not it raises. */
  lemma {:induction false} FillPassKeepsConsistent(s: ManagerState, bar: Bar, visited: seq<OrderInfo>,
                                                   stopLimitIsPriced: bool)
    requires Consistent(s)
    ensures Consistent(FillPass(s, bar, visited, stopLimitIsPriced).state)
    decreases |visited|
  {
    if visited != [] {
      FillPassKeepsConsistent(s, bar, visited[..|visited| - 1], stopLimitIsPriced);
    }
  }

  /** A fill pass that does not raise has tested every visited order, and
      has removed from every set exactly the visited orders that cross. */
  lemma {:induction false} CompletedPassFillsCrossing(s: ManagerState, bar: Bar, visited: seq<OrderInfo>,
                                                      stopLimitIsPriced: bool)
    requires FillPass(s, bar, visited, stopLimitIsPriced).outcome.Pass?
    ensures forall o :: o in visited ==> Crosses(o, bar, stopLimitIsPriced).Ok?
    ensures var f := FillPass(s, bar, visited, stopLimitIsPriced);
            var crossed := set o | o in visited && Crosses(o, bar, stopLimitIsPriced) == Ok(true);
            && f.state.validated == s.validated - crossed
            && f.state.untriggered == s.untriggered - crossed
            && f.state.previous == s.previous - crossed
    decreases |visited|
  {
    if visited != [] {
      var before := visited[..|visited| - 1];
      var last := visited[|visited| - 1];
      CompletedPassFillsCrossing(s, bar, before, stopLimitIsPriced);
      assert forall o :: o in visited <==> o in before || o == last;
      var crossedBefore := set o | o in before && Crosses(o, bar, stopLimitIsPriced) == Ok(true);
      var crossed := set o | o in visited && Crosses(o, bar, stopLimitIsPriced) == Ok(true);
      if Crosses(last, bar, stopLimitIsPriced) == Ok(true) {
        assert crossed == crossedBefore + {last};
      } else {
        assert crossed == crossedBefore;
      }
    }
  }

  /** The visited orders of one book that cross the bar, in visiting order. */
  function CrossedOn(side: Side, visited: seq<OrderInfo>, bar: Bar, stopLimitIsPriced: bool): seq<OrderInfo>
    decreases |visited|
  {
    if visited == [] then []
    else
      var last := visited[|visited| - 1];
      var before := CrossedOn(side, visited[..|visited| - 1], bar, stopLimitIsPriced);
      if SideOf(last.orderAction) == side && Crosses(last, bar, stopLimitIsPriced) == Ok(true)
      then before + [last] else before
  }

  /** The lots of a book after the orders are applied to it one after
      another; the first raise stops. */
  function UpdateAll(side: Side, lots: seq<int>, orders: seq<OrderInfo>): Result<seq<int>>
    decreases |orders|
  {
    if orders == [] then Ok(lots)
    else match UpdateAll(side, lots, orders[..|orders| - 1])
      case Err(e) => Err(e)
      case Ok(before) => Update(side, before, orders[|orders| - 1])
  }

  /** A fill pass that does not raise leaves each book as the book's own
      update gives it, applied in visiting order to that book's crossing
      orders. */
  lemma {:induction false} CompletedPassUpdatesBooks(s: ManagerState, bar: Bar, visited: seq<OrderInfo>,
                                                     stopLimitIsPriced: bool, side: Side)
    requires FillPass(s, bar, visited, stopLimitIsPriced).outcome.Pass?
    ensures UpdateAll(side, LotsOf(s, side), CrossedOn(side, visited, bar, stopLimitIsPriced))
            == Ok(LotsOf(FillPass(s, bar, visited, stopLimitIsPriced).state, side))
    decreases |visited|
  {
    if visited != [] {
      var before := visited[..|visited| - 1];
      var last := visited[|visited| - 1];
      CompletedPassUpdatesBooks(s, bar, before, stopLimitIsPriced, side);
      var crossed := CrossedOn(side, before, bar, stopLimitIsPriced);
      if SideOf(last.orderAction) == side && Crosses(last, bar, stopLimitIsPriced) == Ok(true) {
        assert (crossed + [last])[..|crossed|] == crossed;
      }
    }
  }

  /** Books check only when an order is sent, so two "close all" orders of
      one book that both cross one bar are both accepted when sent, and the
      second raises when it is filled, after the first has emptied the book. */
  lemma SecondCloseOnSameBarFails(s: ManagerState, bar: Bar, side: Side, first: OrderInfo, second: OrderInfo,
                                  stopLimitIsPriced: bool)
    requires first.orderAction == Closing(side) && second.orderAction == Closing(side)
    requires first.orderExit.exitType == All && second.orderExit.exitType == All
    requires LotsOf(s, side) != []
    requires Crosses(first, bar, stopLimitIsPriced) == Ok(true) && Crosses(second, bar, stopLimitIsPriced) == Ok(true)
    ensures Validation(s, first).Pass? && Validation(s, second).Pass?
    ensures var filled := Fill(s, first).state;
            LotsOf(filled, side) == []
            && FillPass(s, bar, [first, second], stopLimitIsPriced) == Step(Fail(InvalidOperation), filled)
  {
    assert SideOf(Closing(side)) == side;
    var filled := Fill(s, first);
    assert filled.outcome == Pass && LotsOf(filled.state, side) == [];
    assert [first][..0] == [];
    assert FillPass(s, bar, [first], stopLimitIsPriced) == filled;
    assert [first, second][..1] == [first];
    assert Fill(filled.state, second) == Step(Fail(InvalidOperation), filled.state);
  }

  // ----- A whole bar

  /** A bar whose fill pass does not raise: the queue is emptied; the orders
      kept for the next bar are the queued ones that did not cross; the ones
      that crossed leave the validated set; and the orders reported canceled
      are exactly those pending from the previous bar and not sent again,
      none of which was tested on this bar. */
  lemma TriggerRotation(s: ManagerState, bar: Bar, visited: seq<OrderInfo>, stopLimitIsPriced: bool)
    requires Enumerates(visited, s.untriggered)
    requires TriggerBar(s, bar, visited, stopLimitIsPriced).outcome.Pass?
    ensures forall o :: o in s.untriggered ==> Crosses(o, bar, stopLimitIsPriced).Ok?
    ensures var t := TriggerBar(s, bar, visited, stopLimitIsPriced);
            var crossed := Crossing(s.untriggered, bar, stopLimitIsPriced);
            && t.state.untriggered == {}
            && t.state.previous == s.untriggered - crossed
            && t.state.validated == s.validated - crossed
            && t.canceled == s.previous - s.untriggered
            && (forall o :: o in t.canceled ==> o !in visited)
  {
    CompletedPassFillsCrossing(s, bar, visited, stopLimitIsPriced);
    var crossed := Crossing(s.untriggered, bar, stopLimitIsPriced);
    assert crossed == set o | o in visited && Crosses(o, bar, stopLimitIsPriced) == Ok(true);
  }

  /** Every bar keeps the invariant. */
  lemma TriggerBarKeepsConsistent(s: ManagerState, bar: Bar, visited: seq<OrderInfo>, stopLimitIsPriced: bool)
    requires Consistent(s)
    ensures Consistent(TriggerBar(s, bar, visited, stopLimitIsPriced).state)
  {
    FillPassKeepsConsistent(s, bar, visited, stopLimitIsPriced);
  }

  /** A bar on which nothing was sent again fills nothing: the books and the
      market position are unchanged, and everything pending is canceled. */
  lemma LapseLeavesPosition(s: ManagerState, bar: Bar, visited: seq<OrderInfo>, stopLimitIsPriced: bool)
    requires s.untriggered == {}
    requires Enumerates(visited, s.untriggered)
    ensures var t := TriggerBar(s, bar, visited, stopLimitIsPriced);
            && t.outcome == Pass
            && t.state == s.(previous := {})
            && t.canceled == s.previous
  {
    ListingOfNone(visited);
  }

  /** The state after the orders are sent one after another, whatever each
      send's outcome. */
  function SubmitAll(s: ManagerState, sends: seq<OrderInfo>): ManagerState
    decreases |sends|
  {
    if sends == [] then s else Submit(SubmitAll(s, sends[..|sends| - 1]), sends[|sends| - 1]).state
  }

  /** Sending other orders never puts an order into any set. */
  lemma {:induction false} OthersLeaveOrderOut(s: ManagerState, sends: seq<OrderInfo>, o: OrderInfo)
    requires o !in s.validated && o !in s.untriggered && o !in s.previous
    requires o !in sends
    ensures var t := SubmitAll(s, sends);
            o !in t.validated && o !in t.untriggered && o !in t.previous
    decreases |sends|
  {
    if sends != [] {
      assert sends[|sends| - 1] in sends;
      assert forall x :: x in sends[..|sends| - 1] ==> x in sends;
      OthersLeaveOrderOut(s, sends[..|sends| - 1], o);
    }
  }

  /** An order filled on a bar is in no set afterwards, so whatever other
      orders are sent before the next bar, it is not visited there. */
  lemma FilledOrderNeverFillsAgain(s: ManagerState, bar: Bar, visited: seq<OrderInfo>, stopLimitIsPriced: bool,
                                   o: OrderInfo, sends: seq<OrderInfo>, nextVisited: seq<OrderInfo>)
    requires Enumerates(visited, s.untriggered)
    requires TriggerBar(s, bar, visited, stopLimitIsPriced).outcome.Pass?
    requires o in Crossing(s.untriggered, bar, stopLimitIsPriced)
    requires o !in sends
    requires Enumerates(nextVisited, SubmitAll(TriggerBar(s, bar, visited, stopLimitIsPriced).state, sends).untriggered)
    ensures var t := TriggerBar(s, bar, visited, stopLimitIsPriced);
            && o !in t.state.validated && o !in t.state.untriggered && o !in t.state.previous
            && o !in nextVisited
  {
    TriggerRotation(s, bar, visited, stopLimitIsPriced);
    OthersLeaveOrderOut(TriggerBar(s, bar, visited, stopLimitIsPriced).state, sends, o);
  }

  /** A filled order has left the validated set, so sending it again raises
      `OrderValidated` again. */
  lemma ResendAfterFillIsAnnounced(s: ManagerState, bar: Bar, visited: seq<OrderInfo>, stopLimitIsPriced: bool,
                                   o: OrderInfo)
    requires Enumerates(visited, s.untriggered)
    requires TriggerBar(s, bar, visited, stopLimitIsPriced).outcome.Pass?
    requires o in Crossing(s.untriggered, bar, stopLimitIsPriced)
    requires Validation(TriggerBar(s, bar, visited, stopLimitIsPriced).state, o).Pass?
    ensures Submit(TriggerBar(s, bar, visited, stopLimitIsPriced).state, o).validatedEvents == [o]
  {
    TriggerRotation(s, bar, visited, stopLimitIsPriced);
  }

  /** A canceled order stays in the validated set, so sending it again raises
      no `OrderValidated`. */
  lemma ResendAfterLapseIsSilent(s: ManagerState, bar: Bar, visited: seq<OrderInfo>, stopLimitIsPriced: bool,
                                 o: OrderInfo)
    requires Consistent(s)
    requires Enumerates(visited, s.untriggered)
    requires TriggerBar(s, bar, visited, stopLimitIsPriced).outcome.Pass?
    requires o in TriggerBar(s, bar, visited, stopLimitIsPriced).canceled
    ensures o in TriggerBar(s, bar, visited, stopLimitIsPriced).state.validated
    ensures Submit(TriggerBar(s, bar, visited, stopLimitIsPriced).state, o).validatedEvents == []
  {
    TriggerRotation(s, bar, visited, stopLimitIsPriced);
  }

  // ----- Trigger prices of the order classes

  /** The price the fill test uses: a limit order's price, a stop order's
      stop price, a stop-limit order's stop price; a market order is never
      accepted by the fill test. */
  lemma TriggerPriceOfSends(o: OrderObject, price: real, stopPrice: real, limitPrice: real, bar: Bar,
                            stopLimitIsPriced: bool)
    ensures o.info.category == Limit && LimitOrder.Send(o, price).Ok? ==>
              TriggerPrice(LimitOrder.Send(o, price).value) == price
    ensures o.info.category == Stop && StopOrder.Send(o, price).Ok? ==>
              TriggerPrice(StopOrder.Send(o, price).value) == price
    ensures o.info.category == StopLimit && StopLimitOrder.Send(o, stopPrice, limitPrice).Ok? ==>
              TriggerPrice(StopLimitOrder.Send(o, stopPrice, limitPrice).value) == stopPrice
    ensures o.info.category == Market ==> Crosses(MarketOrder.Send(o), bar, stopLimitIsPriced) == Err(Argument)
  {
  }
}
