/** The order-state machine and position accounting.

    Sent orders are validated against the book of their side, announced once
    per pending value, and then either filled at once (market orders) or
    queued until the next bar.  On each bar the queued orders are tested
    against the bar's low or high; the ones that cross are filled, the ones
    that were pending on the previous bar but were not sent again are
    reported canceled, and the queue is rotated.

    The functions below state what each step does to a `ManagerState`; the
    class `StrategyManager` performs the same steps in place and its methods
    are proved against these functions. */
module Strategy {
  import opened Errors
  import opened Orders
  import opened Positions
  import opened Instruments

  /** Everything a manager holds: the three pending sets, keyed by the whole
      `OrderInfo` value, the lots of both books and the market position. */
  datatype ManagerState = ManagerState(
    validated: set<OrderInfo>,
    untriggered: set<OrderInfo>,
    previous: set<OrderInfo>,
    longLots: seq<int>,
    shortLots: seq<int>,
    marketPosition: int)

  const Initial: ManagerState := ManagerState({}, {}, {}, [], [], 0)

  /** The book an action belongs to. */
  function SideOf(action: OrderAction): Side
  {
    match action
    case Buy | Sell => Long
    case SellShort | BuyToCover => Short
  }

  /** The book an order of the other side belongs to. */
  function OtherSide(side: Side): Side
  {
    if side == Long then Short else Long
  }

  function LotsOf(s: ManagerState, side: Side): seq<int>
  {
    if side == Long then s.longLots else s.shortLots
  }

  /** The net position: long size minus short size. */
  function NetSize(s: ManagerState): int
  {
    Sum(s.longLots) - Sum(s.shortLots)
  }

  /** The invariant every reachable state keeps: the market position is the
      net size of the books, and every pending order has been announced. */
  ghost predicate Consistent(s: ManagerState)
  {
    && s.marketPosition == NetSize(s)
    && s.untriggered <= s.validated
    && s.previous <= s.validated
  }

  /** Whether the fill test accepts orders of a category.  Limit and stop
      orders are priced; market orders are not.  Whether the stop-limit
      interface extends the priced one is decided by the trading platform,
      so it is a parameter. */
  predicate IsPriced(category: OrderCategory, stopLimitIsPriced: bool)
  {
    category == Limit || category == Stop || (category == StopLimit && stopLimitIsPriced)
  }

  /** The price tested against the bar: the condition price when it is
      positive, the fill price otherwise. */
  function TriggerPrice(order: OrderInfo): real
  {
    if order.conditionPrice > 0.0 then order.conditionPrice else order.price
  }

  /** The crossing rule.  A buying order fills when its price is at or above
      the bar's low, a selling order when it is at or below the bar's high;
      an order the fill test does not accept raises. */
  function Crosses(order: OrderInfo, bar: Bar, stopLimitIsPriced: bool): (r: Result<bool>)
    ensures r.Err? <==> !IsPriced(order.order.category, stopLimitIsPriced)
    ensures r.Err? ==> r.error == Argument
    ensures r == Ok(true) <==>
              IsPriced(order.order.category, stopLimitIsPriced)
              && (if order.orderAction in {Buy, BuyToCover} then bar.low <= TriggerPrice(order)
                  else TriggerPrice(order) <= bar.high)
  {
    if !IsPriced(order.order.category, stopLimitIsPriced) then Err(Argument)
    else
      var price := if order.conditionPrice <= 0.0 then order.price else order.conditionPrice;
      match order.orderAction
      case Buy | BuyToCover => Ok(price >= bar.low)
      case Sell | SellShort => Ok(price <= bar.high)
  }

  /** The result of one step on a state. */
  datatype Step = Step(outcome: Outcome, state: ManagerState)

  /** Validation of a sent order by the book of its side: opening orders
      pass; a closing order passes only as "close all" on a book that holds
      lots; every refusal is an InvalidOrder. */
  function Validation(s: ManagerState, order: OrderInfo): (r: Outcome)
    ensures r.Pass? <==> order.orderAction in {Buy, SellShort}
                         || (LotsOf(s, SideOf(order.orderAction)) != [] && order.orderExit.exitType == All)
    ensures r.Fail? ==> r.error.InvalidOrder?
  {
    var side := SideOf(order.orderAction);
    Validate(side, LotsOf(s, side), order)
  }

  /** A fill: the book of the order's side takes the order; on success the
      market position is recomputed and the order leaves all three sets.  If
      the book raises, the fill raises the same error and nothing changes. */
  function Fill(s: ManagerState, order: OrderInfo): (r: Step)
    ensures Consistent(s) ==> Consistent(r.state)
    ensures var side := SideOf(order.orderAction);
            var update := Update(side, LotsOf(s, side), order);
            && (r.outcome.Pass? <==> update.Ok?)
            && (update.Err? ==> r.outcome == Fail(update.error))
            && (update.Ok? ==> LotsOf(r.state, side) == update.value
                               && LotsOf(r.state, OtherSide(side)) == LotsOf(s, OtherSide(side)))
    ensures r.outcome.Fail? ==> r.state == s
    ensures r.outcome.Pass? ==>
              && r.state.marketPosition == NetSize(r.state)
              && r.state.validated == s.validated - {order}
              && r.state.untriggered == s.untriggered - {order}
              && r.state.previous == s.previous - {order}
  {
    var side := SideOf(order.orderAction);
    match Update(side, LotsOf(s, side), order)
    case Err(e) => Step(Fail(e), s)
    case Ok(lots) =>
      var s1 := if side == Long then s.(longLots := lots) else s.(shortLots := lots);
      Step(Pass, s1.(marketPosition := NetSize(s1),
                     validated := s.validated - {order},
                     untriggered := s.untriggered - {order},
                     previous := s.previous - {order}))
  }

  /** The result of a submission, with the `OrderValidated` events it raised. */
  datatype Submission = Submission(outcome: Outcome, state: ManagerState, validatedEvents: seq<OrderInfo>)

  /** A sent order.  A refused order raises InvalidOrder and changes nothing.
      An accepted order is announced unless an equal value is already in the
      validated set; a market order is then filled, any other order queued.
      A fill after a successful validation never raises. */
  function Submit(s: ManagerState, order: OrderInfo): (r: Submission)
    ensures Validation(s, order).Fail? ==> r == Submission(Validation(s, order), s, [])
    ensures r.outcome.Fail? <==> Validation(s, order).Fail?
    ensures r.outcome.Fail? ==> r.outcome.error.InvalidOrder?
    ensures r.validatedEvents == if r.outcome.Pass? && order !in s.validated then [order] else []
    ensures r.outcome.Pass? && order.order.category != Market ==>
              r.state == s.(validated := s.validated + {order}, untriggered := s.untriggered + {order})
    ensures r.outcome.Pass? && order.order.category == Market ==>
              Step(r.outcome, r.state) == Fill(s.(validated := s.validated + {order}), order)
    ensures Consistent(s) ==> Consistent(r.state)
  {
    var v := Validation(s, order);
    if v.Fail? then Submission(v, s, [])
    else
      ValidatedUpdateSucceeds(SideOf(order.orderAction), LotsOf(s, SideOf(order.orderAction)), order);
      var events := if order !in s.validated then [order] else [];
      var s1 := s.(validated := s.validated + {order});
      if order.order.category == Market then
        var f := Fill(s1, order);
        Submission(f.outcome, f.state, events)
      else
        Submission(Pass, s1.(untriggered := s1.untriggered + {order}), events)
  }

  /** One queued order on a bar: filled if it crosses, left alone if not. */
  function Evaluate(s: ManagerState, order: OrderInfo, bar: Bar, stopLimitIsPriced: bool): Step
  {
    match Crosses(order, bar, stopLimitIsPriced)
    case Err(e) => Step(Fail(e), s)
    case Ok(fires) => if fires then Fill(s, order) else Step(Pass, s)
  }

  /** The fill pass over the queued orders, taken in the order `visited`.
      The first raise ends the pass with the state reached so far. */
  function FillPass(s: ManagerState, bar: Bar, visited: seq<OrderInfo>, stopLimitIsPriced: bool): Step
    decreases |visited|
  {
    if visited == [] then Step(Pass, s)
    else
      var before := FillPass(s, bar, visited[..|visited| - 1], stopLimitIsPriced);
      if before.outcome.Fail? then before
      else Evaluate(before.state, visited[|visited| - 1], bar, stopLimitIsPriced)
  }

  /** The result of a bar, with the orders reported canceled. */
  datatype BarOutcome = BarOutcome(outcome: Outcome, state: ManagerState, canceled: set<OrderInfo>)

  /** A bar: the fill pass, then every order still pending from the previous
      bar but not queued again is reported canceled, and the queue becomes
      the previous set.  If the fill pass raises, the rest does not happen. */
  function TriggerBar(s: ManagerState, bar: Bar, visited: seq<OrderInfo>, stopLimitIsPriced: bool): BarOutcome
  {
    var f := FillPass(s, bar, visited, stopLimitIsPriced);
    if f.outcome.Fail? then BarOutcome(f.outcome, f.state, {})
    else BarOutcome(Pass, f.state.(previous := f.state.untriggered, untriggered := {}),
                    f.state.previous - f.state.untriggered)
  }

  /** `visited` lists the elements of `pending`, each exactly once. */
  ghost predicate Enumerates(visited: seq<OrderInfo>, pending: set<OrderInfo>)
  {
    && (forall i, j :: 0 <= i < j < |visited| ==> visited[i] != visited[j])
    && (forall o :: o in visited <==> o in pending)
  }

  /** Some listing of a set. */
  ghost function Listing(pending: set<OrderInfo>): (visited: seq<OrderInfo>)
    ensures Enumerates(visited, pending)
    decreases |pending|
  {
    if pending == {} then []
    else
      var o :| o in pending;
      var rest := Listing(pending - {o});
      assert forall x :: x in [o] + rest <==> x == o || x in rest;
      [o] + rest
  }

  /** Once the fill pass has raised, the orders after the raising one make no
      difference. */
  lemma {:induction false} FailedPassIgnoresRest(s: ManagerState, bar: Bar, visited: seq<OrderInfo>,
                                                 rest: seq<OrderInfo>, stopLimitIsPriced: bool)
    requires FillPass(s, bar, visited, stopLimitIsPriced).outcome.Fail?
    ensures FillPass(s, bar, visited + rest, stopLimitIsPriced) == FillPass(s, bar, visited, stopLimitIsPriced)
    decreases |rest|
  {
    if rest != [] {
      var shorter := rest[..|rest| - 1];
      FailedPassIgnoresRest(s, bar, visited, shorter, stopLimitIsPriced);
      assert (visited + rest)[..|visited + rest| - 1] == visited + shorter;
      assert FillPass(s, bar, visited + rest, stopLimitIsPriced)
          == FillPass(s, bar, visited + shorter, stopLimitIsPriced);
    } else {
      assert visited + rest == visited;
    }
  }

  /** A fill pass that has not raised, extended by one order, is that
      order's evaluation in the state reached. */
  lemma FillPassExtends(s: ManagerState, bar: Bar, visited: seq<OrderInfo>, order: OrderInfo,
                        stopLimitIsPriced: bool)
    requires FillPass(s, bar, visited, stopLimitIsPriced).outcome.Pass?
    ensures FillPass(s, bar, visited + [order], stopLimitIsPriced)
         == Evaluate(FillPass(s, bar, visited, stopLimitIsPriced).state, order, bar, stopLimitIsPriced)
  {
    assert (visited + [order])[..|visited|] == visited;
  }

  lemma EnumeratesExtend(visited: seq<OrderInfo>, done: set<OrderInfo>, order: OrderInfo)
    requires Enumerates(visited, done) && order !in done
    ensures Enumerates(visited + [order], done + {order})
  {
    assert forall o :: o in visited + [order] <==> o in visited || o == order;
  }

  lemma EnumeratesJoin(visited: seq<OrderInfo>, done: set<OrderInfo>, rest: seq<OrderInfo>, remaining: set<OrderInfo>)
    requires Enumerates(visited, done) && Enumerates(rest, remaining) && done !! remaining
    ensures Enumerates(visited + rest, done + remaining)
  {
    var all := visited + rest;
    assert forall o :: o in all <==> o in visited || o in rest;
    forall i, j | 0 <= i < j < |all|
      ensures all[i] != all[j]
    {
      if j < |visited| {
      } else if i >= |visited| {
        assert all[i] == rest[i - |visited|] && all[j] == rest[j - |visited|];
      } else {
        assert all[i] in visited && all[j] in rest;
      }
    }
  }

  /** After a raise, the orders not yet taken are appended to `visited` in
      some order; they do not change the outcome. */
  lemma CompleteListing(s: ManagerState, bar: Bar, visited: seq<OrderInfo>, done: set<OrderInfo>,
                        remaining: set<OrderInfo>, stopLimitIsPriced: bool)
    returns (all: seq<OrderInfo>)
    requires FillPass(s, bar, visited, stopLimitIsPriced).outcome.Fail?
    requires Enumerates(visited, done) && done !! remaining
    ensures Enumerates(all, done + remaining)
    ensures FillPass(s, bar, all, stopLimitIsPriced) == FillPass(s, bar, visited, stopLimitIsPriced)
  {
    var rest := Listing(remaining);
    all := visited + rest;
    FailedPassIgnoresRest(s, bar, visited, rest, stopLimitIsPriced);
    EnumeratesJoin(visited, done, rest, remaining);
  }

  /** The manager, updated in place.  The `OrderValidated` and `OrderCanceled`
      events are recorded in the ghost sequences `validatedEvents` and
      `canceledEvents`, in the order they were raised. */
  class StrategyManager {
    var previousSubmittedOrders: set<OrderInfo>
    var untriggeredOrders: set<OrderInfo>
    var validatedOrders: set<OrderInfo>
    const longPosition: Position
    const shortPosition: Position
    var marketPosition: int
    const stopLimitIsPriced: bool
    ghost var validatedEvents: seq<OrderInfo>
    ghost var canceledEvents: seq<OrderInfo>

    ghost predicate Valid()
      reads this
    {
      longPosition != shortPosition && longPosition.side == Long && shortPosition.side == Short
    }

    ghost function State(): ManagerState
      reads this, longPosition, shortPosition
    {
      ManagerState(validatedOrders, untriggeredOrders, previousSubmittedOrders,
                   longPosition.positions, shortPosition.positions, marketPosition)
    }

    constructor (stopLimitIsPriced: bool)
      ensures Valid() && fresh(longPosition) && fresh(shortPosition)
      ensures State() == Initial && this.stopLimitIsPriced == stopLimitIsPriced
      ensures validatedEvents == [] && canceledEvents == []
    {
      longPosition := new Position(Long);
      shortPosition := new Position(Short);
      previousSubmittedOrders, untriggeredOrders, validatedOrders := {}, {}, {};
      marketPosition := 0;
      this.stopLimitIsPriced := stopLimitIsPriced;
      validatedEvents, canceledEvents := [], [];
    }

    /** The net position of the two books. */
    function Size(): int
      reads this, longPosition, shortPosition
    {
      longPosition.Size() - shortPosition.Size()
    }

    /** Validation through the book object of the order's side; it agrees
        with `Validation` on the manager's state. */
    function ValidateOrder(order: OrderInfo): (r: Outcome)
      requires Valid()
      reads this, longPosition, shortPosition
      ensures r == Validation(State(), order)
    {
      match order.orderAction
      case Buy | Sell => longPosition.ValidateOrder(order)
      case SellShort | BuyToCover => shortPosition.ValidateOrder(order)
    }

    /** A sent order. */
    method OnOrderSent(order: OrderInfo) returns (r: Outcome)
      requires Valid()
      modifies this, longPosition, shortPosition
      ensures Valid()
      ensures var sub := Submit(old(State()), order);
              r == sub.outcome && State() == sub.state
              && validatedEvents == old(validatedEvents) + sub.validatedEvents
      ensures canceledEvents == old(canceledEvents)
    {
      r := ValidateOrder(order);
      if r.Fail? {
        return;
      }
      ghost var accepted := State().(validated := validatedOrders + {order});
      ValidatedUpdateSucceeds(SideOf(order.orderAction), LotsOf(State(), SideOf(order.orderAction)), order);
      if order !in validatedOrders {
        validatedOrders := validatedOrders + {order};
        validatedEvents := validatedEvents + [order];
      }
      assert State() == accepted;
      r := CheckIfOrderTriggered(order);
    }

    /** A market order is filled now; any other order is queued. */
    method CheckIfOrderTriggered(order: OrderInfo) returns (r: Outcome)
      requires Valid()
      modifies this, longPosition, shortPosition
      ensures Valid()
      ensures order.order.category == Market ==> Step(r, State()) == Fill(old(State()), order)
      ensures order.order.category != Market ==>
                r == Pass && State() == old(State()).(untriggered := old(untriggeredOrders) + {order})
      ensures validatedEvents == old(validatedEvents) && canceledEvents == old(canceledEvents)
    {
      if order.order.category == Market {
        r := OnOrderTriggered(order);
      } else {
        untriggeredOrders := untriggeredOrders + {order};
        r := Pass;
      }
    }

    /** A fill. */
    method OnOrderTriggered(order: OrderInfo) returns (r: Outcome)
      requires Valid()
      modifies this, longPosition, shortPosition
      ensures Valid()
      ensures Step(r, State()) == Fill(old(State()), order)
      ensures validatedEvents == old(validatedEvents) && canceledEvents == old(canceledEvents)
    {
      match order.orderAction {
        case Buy | Sell =>
          r := longPosition.UpdatePosition(order);
        case SellShort | BuyToCover =>
          r := shortPosition.UpdatePosition(order);
      }
      if r.Fail? {
        return;
      }
      marketPosition := Size();
      validatedOrders := validatedOrders - {order};
      untriggeredOrders := untriggeredOrders - {order};
      previousSubmittedOrders := previousSubmittedOrders - {order};
    }

    /** A bar.  The queued orders are taken in an order the hash set decides;
        `visited` is that order. */
    method TriggerOrders(bar: Bar) returns (r: Outcome, ghost visited: seq<OrderInfo>)
      requires Valid()
      modifies this, longPosition, shortPosition
      ensures Valid()
      ensures Enumerates(visited, old(untriggeredOrders))
      ensures var t := TriggerBar(old(State()), bar, visited, stopLimitIsPriced);
              r == t.outcome && State() == t.state
              && |canceledEvents| >= |old(canceledEvents)|
              && canceledEvents[..|old(canceledEvents)|] == old(canceledEvents)
              && Enumerates(canceledEvents[|old(canceledEvents)|..], t.canceled)
      ensures validatedEvents == old(validatedEvents)
    {
      r, visited := FillQueued(bar);
      if r.Fail? {
        assert canceledEvents[|old(canceledEvents)|..] == [];
        return;
      }
      ghost var lapsed := ReportLapsed();
      assert canceledEvents[|old(canceledEvents)|..] == lapsed;
      previousSubmittedOrders := untriggeredOrders;
      untriggeredOrders := {};
    }

    /** The fill pass of a bar: each queued order, in the order `visited`,
        is tested and filled if it crosses; a raise ends the pass. */
    method FillQueued(bar: Bar) returns (r: Outcome, ghost visited: seq<OrderInfo>)
      requires Valid()
      modifies this, longPosition, shortPosition
      ensures Valid()
      ensures Enumerates(visited, old(untriggeredOrders))
      ensures Step(r, State()) == FillPass(old(State()), bar, visited, stopLimitIsPriced)
      ensures validatedEvents == old(validatedEvents) && canceledEvents == old(canceledEvents)
    {
      ghost var start := State();
      var snapshot := untriggeredOrders;
      var remaining := snapshot;
      visited := [];
      r := Pass;
      while remaining != {}
        invariant Valid()
        invariant remaining <= snapshot
        invariant Enumerates(visited, snapshot - remaining)
        invariant FillPass(start, bar, visited, stopLimitIsPriced) == Step(Pass, State())
        invariant r == Pass
        invariant validatedEvents == old(validatedEvents) && canceledEvents == old(canceledEvents)
        decreases remaining
      {
        var order :| order in remaining;
        ghost var before := visited;
        visited := visited + [order];
        EnumeratesExtend(before, snapshot - remaining, order);
        assert (snapshot - remaining) + {order} == snapshot - (remaining - {order});
        remaining := remaining - {order};
        FillPassExtends(start, bar, before, order, stopLimitIsPriced);
        r := TriggerIfCrossed(order, bar);
        if r.Fail? {
          assert (snapshot - remaining) + remaining == snapshot;
          visited := CompleteListing(start, bar, visited, snapshot - remaining, remaining, stopLimitIsPriced);
          return;
        }
      }
      assert snapshot - remaining == snapshot;
    }

    /** One queued order on a bar: an order the fill test does not accept
        raises; an order whose price crosses the bar is filled. */
    method TriggerIfCrossed(order: OrderInfo, bar: Bar) returns (r: Outcome)
      requires Valid()
      modifies this, longPosition, shortPosition
      ensures Valid()
      ensures Step(r, State()) == Evaluate(old(State()), order, bar, stopLimitIsPriced)
      ensures validatedEvents == old(validatedEvents) && canceledEvents == old(canceledEvents)
    {
      if !IsPriced(order.order.category, stopLimitIsPriced) {
        return Fail(Argument);
      }
      var price := order.conditionPrice;
      if price <= 0.0 {
        price := order.price;
      }
      var fires: bool;
      match order.orderAction {
        case Buy | BuyToCover =>
          fires := price >= bar.low;
        case Sell | SellShort =>
          fires := price <= bar.high;
      }
      r := Pass;
      if fires {
        r := OnOrderTriggered(order);
      }
    }

    /** Reports every order pending from the previous bar that was not queued
        again, once each, in the order the hash set decides. */
    method ReportLapsed() returns (ghost lapsed: seq<OrderInfo>)
      modifies this
      ensures State() == old(State()) && Valid() == old(Valid())
      ensures Enumerates(lapsed, previousSubmittedOrders - untriggeredOrders)
      ensures canceledEvents == old(canceledEvents) + lapsed
      ensures validatedEvents == old(validatedEvents)
    {
      var unchecked := previousSubmittedOrders;
      lapsed := [];
      while unchecked != {}
        invariant unchecked <= previousSubmittedOrders
        invariant forall i, j :: 0 <= i < j < |lapsed| ==> lapsed[i] != lapsed[j]
        invariant forall o :: o in lapsed <==>
                    o in previousSubmittedOrders && o !in unchecked && o !in untriggeredOrders
        invariant canceledEvents == old(canceledEvents) + lapsed
        invariant State() == old(State()) && validatedEvents == old(validatedEvents)
        decreases unchecked
      {
        var order :| order in unchecked;
        unchecked := unchecked - {order};
        if order !in untriggeredOrders {
          canceledEvents := canceledEvents + [order];
          lapsed := lapsed + [order];
        }
      }
    }
  }
}
