/** Stop-limit orders: a stop (condition) price and a limit (fill) price. */
module StopLimitOrder {
  import opened Errors
  import opened Orders
  import Extensions
  import BaseOrder

  function New(orderParams: OrderParameters, openNext: bool): (o: OrderObject)
    ensures o.info.category == StopLimit && o.orderParams == orderParams && o.info.onClose == openNext
  {
    BaseOrder.New(orderParams, StopLimit, openNext)
  }

  /** `Send(stopPrice, limitPrice)`: the stop price is checked before the
      limit price; a valid pair becomes the condition and fill prices. */
  function Send(o: OrderObject, stopPrice: real, limitPrice: real): (r: Result<OrderInfo>)
    requires o.info.category == StopLimit
    ensures stopPrice <= 0.0 <==> r == Err(ArgumentOutOfRange(StopPriceArg))
    ensures stopPrice > 0.0 && limitPrice <= 0.0 <==> r == Err(ArgumentOutOfRange(LimitPriceArg))
    ensures r.Ok? ==> r.value.conditionPrice == stopPrice && r.value.price == limitPrice
    ensures r.Ok? ==> r.value.size == Extensions.GetSize(o.orderParams.lots)
    ensures r.Ok? ==> r.value.order == BaseOrder.Key(o) && r.value.orderAction == o.orderParams.action
                      && r.value.orderExit == o.orderParams.exitTypeInfo
  {
    if stopPrice <= 0.0 then Err(ArgumentOutOfRange(StopPriceArg))
    else if limitPrice <= 0.0 then Err(ArgumentOutOfRange(LimitPriceArg))
    else Ok(BaseOrder.Emit(o, stopPrice, limitPrice, Extensions.GetSize(o.orderParams.lots)))
  }

  /** `Send(stopPrice, limitPrice, numLots)`: both prices are checked before
      the count; zero lots means the two-price `Send`, a positive count
      changes only the size. */
  function SendLots(o: OrderObject, stopPrice: real, limitPrice: real, numLots: int): (r: Result<OrderInfo>)
    requires o.info.category == StopLimit
    ensures stopPrice <= 0.0 || limitPrice <= 0.0 ==> r == Send(o, stopPrice, limitPrice)
    ensures stopPrice > 0.0 && limitPrice > 0.0 && numLots < 0 ==> r == Err(ArgumentOutOfRange(NumLotsArg))
    ensures numLots == 0 ==> r == Send(o, stopPrice, limitPrice)
    ensures stopPrice > 0.0 && limitPrice > 0.0 && numLots > 0 ==>
      r == Ok(Send(o, stopPrice, limitPrice).value.(size := Extensions.GetSizeWithLots(o.orderParams.lots, numLots)))
  {
    if stopPrice <= 0.0 then Err(ArgumentOutOfRange(StopPriceArg))
    else if limitPrice <= 0.0 then Err(ArgumentOutOfRange(LimitPriceArg))
    else if numLots < 0 then Err(ArgumentOutOfRange(NumLotsArg))
    else if numLots == 0 then Send(o, stopPrice, limitPrice)
    else Ok(BaseOrder.Emit(o, stopPrice, limitPrice, Extensions.GetSizeWithLots(o.orderParams.lots, numLots)))
  }
}
