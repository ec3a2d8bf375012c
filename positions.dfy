/** One side of the position book.  The long book opens with Buy and closes
    with Sell; the short book opens with SellShort and closes with
    BuyToCover.  A book is the list of the lot sizes it has opened; it only
    ever gains one lot or loses all of them. */
module Positions {
  import opened Errors
  import opened Orders

  datatype Side = Long | Short

  /** The action that adds a lot to this side. */
  function Opening(side: Side): OrderAction
  {
    if side == Long then Buy else SellShort
  }

  /** The action that closes this side. */
  function Closing(side: Side): OrderAction
  {
    if side == Long then Sell else BuyToCover
  }

  /** The total size of a list of lots. */
  function Sum(lots: seq<int>): int
  {
    if lots == [] then 0 else Sum(lots[..|lots| - 1]) + lots[|lots| - 1]
  }

  /** The check a book applies before an order is accepted.  Only the opening
      action, or the closing action with "close all" on a book that holds
      lots, is accepted; an empty book is reported before a wrong exit. */
  function Validate(side: Side, lots: seq<int>, order: OrderInfo): (r: Outcome)
    ensures r.Pass? <==> order.orderAction == Opening(side)
                         || (order.orderAction == Closing(side) && lots != [] && order.orderExit.exitType == All)
    ensures order.orderAction == Closing(side) && lots == [] ==> r == Fail(InvalidOrder(NoOpenPosition))
    ensures order.orderAction == Closing(side) && lots != [] && order.orderExit.exitType != All ==>
              r == Fail(InvalidOrder(ExitTypeNotSupported))
    ensures order.orderAction != Opening(side) && order.orderAction != Closing(side) ==>
              r == Fail(InvalidOrder(WrongSide))
  {
    if order.orderAction == Opening(side) then Pass
    else if order.orderAction == Closing(side) then
      if |lots| == 0 then Fail(InvalidOrder(NoOpenPosition))
      else if order.orderExit.exitType != All then Fail(InvalidOrder(ExitTypeNotSupported))
      else Pass
    else Fail(InvalidOrder(WrongSide))
  }

  /** The lots after a filled order: the opening action appends one lot of the
      order's size, the closing action with "close all" clears the book.  A
      closing order on an empty book, another exit style, or an action of the
      other side raises instead and the lots are left as they were. */
  function Update(side: Side, lots: seq<int>, order: OrderInfo): (r: Result<seq<int>>)
    ensures order.orderAction == Opening(side) ==>
              r.Ok? && r.value == lots + [order.size] && Sum(r.value) == Sum(lots) + order.size
    ensures order.orderAction == Closing(side) && lots == [] ==> r == Err(InvalidOperation)
    ensures order.orderAction == Closing(side) && lots != [] ==>
              r == if order.orderExit.exitType == All then Ok([]) else Err(NotImplemented)
    ensures order.orderAction != Opening(side) && order.orderAction != Closing(side) ==> r == Err(Argument)
  {
    if order.orderAction == Opening(side) then
      var grown := lots + [order.size];
      assert grown[..|grown| - 1] == lots;
      Ok(grown)
    else if order.orderAction == Closing(side) then
      if |lots| == 0 then Err(InvalidOperation)
      else if order.orderExit.exitType == All then Ok([])
      else Err(NotImplemented)
    else Err(Argument)
  }

  /** An order the book accepted can always be applied to it: every way
      `Update` raises is refused earlier by `Validate`. */
  lemma ValidatedUpdateSucceeds(side: Side, lots: seq<int>, order: OrderInfo)
    requires Validate(side, lots, order).Pass?
    ensures Update(side, lots, order).Ok?
  {
  }

  /** Opening lots and then closing with "close all" brings the side back to
      size zero, whatever was held before. */
  lemma {:induction false} OpenThenCloseIsFlat(side: Side, lots: seq<int>, opens: seq<OrderInfo>, close: OrderInfo)
    requires forall i :: 0 <= i < |opens| ==> opens[i].orderAction == Opening(side)
    requires close.orderAction == Closing(side) && close.orderExit.exitType == All
    requires lots != [] || opens != []
    ensures var held := OpenAll(side, lots, opens);
            Sum(held) == Sum(lots) + SizeOf(opens)
            && Validate(side, held, close).Pass? && Update(side, held, close) == Ok([])
  {
    OpenAllGrows(side, lots, opens);
  }

  /** The lots after filling a sequence of opening orders in turn. */
  function OpenAll(side: Side, lots: seq<int>, opens: seq<OrderInfo>): seq<int>
    requires forall i :: 0 <= i < |opens| ==> opens[i].orderAction == Opening(side)
    decreases |opens|
  {
    if opens == [] then lots else OpenAll(side, Update(side, lots, opens[0]).value, opens[1..])
  }

  lemma {:induction false} OpenAllGrows(side: Side, lots: seq<int>, opens: seq<OrderInfo>)
    requires forall i :: 0 <= i < |opens| ==> opens[i].orderAction == Opening(side)
    ensures |OpenAll(side, lots, opens)| == |lots| + |opens|
    ensures Sum(OpenAll(side, lots, opens)) == Sum(lots) + SizeOf(opens)
    decreases |opens|
  {
    if opens != [] {
      OpenAllGrows(side, Update(side, lots, opens[0]).value, opens[1..]);
      assert opens == [opens[0]] + opens[1..];
    }
  }

  /** The total size of a sequence of orders. */
  function SizeOf(orders: seq<OrderInfo>): int
  {
    if orders == [] then 0 else orders[0].size + SizeOf(orders[1..])
  }

  /** One side of the book, updated in place. */
  class Position {
    const side: Side
    var positions: seq<int>

    constructor (side: Side)
      ensures this.side == side && positions == []
    {
      this.side := side;
      positions := [];
    }

    /** The sum of the open lot sizes; zero for an empty book. */
    function Size(): int
      reads this
    {
      Sum(positions)
    }

    function ValidateOrder(order: OrderInfo): Outcome
      reads this
    {
      Validate(side, positions, order)
    }

    method UpdatePosition(order: OrderInfo) returns (r: Outcome)
      modifies this
      ensures Update(side, old(positions), order).Ok? ==>
                r == Pass && positions == Update(side, old(positions), order).value
      ensures Update(side, old(positions), order).Err? ==>
                r == Fail(Update(side, old(positions), order).error) && positions == old(positions)
    {
      if order.orderAction == Opening(side) {
        OpenPosition(order);
        r := Pass;
      } else if order.orderAction == Closing(side) {
        r := ClosePosition(order);
      } else {
        r := Fail(Argument);
      }
    }

    method OpenPosition(order: OrderInfo)
      modifies this
      ensures positions == old(positions) + [order.size]
    {
      positions := positions + [order.size];
    }

    method ClosePosition(order: OrderInfo) returns (r: Outcome)
      modifies this
      ensures old(positions) == [] ==> r == Fail(InvalidOperation) && positions == old(positions)
      ensures old(positions) != [] && order.orderExit.exitType == All ==> r == Pass && positions == []
      ensures old(positions) != [] && order.orderExit.exitType != All ==>
                r == Fail(NotImplemented) && positions == old(positions)
    {
      if |positions| == 0 {
        return Fail(InvalidOperation);
      }
      if order.orderExit.exitType == All {
        positions := [];
        r := Pass;
      } else {
        r := Fail(NotImplemented);
      }
    }
  }
}
