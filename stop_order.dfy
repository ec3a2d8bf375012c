/** Stop orders: the price is a condition price and there is no fill
    price. */
module StopOrder {
  import opened Errors
  import opened Orders
  import Extensions
  import BaseOrder

  function New(orderParams: OrderParameters, openNext: bool): (o: OrderObject)
    ensures o.info.category == Stop && o.orderParams == orderParams && o.info.onClose == openNext
  {
    BaseOrder.New(orderParams, Stop, openNext)
  }

  /** `Send(price)`: a price that is not positive is refused; otherwise the
      snapshot carries it as the condition price and has no fill price. */
  function Send(o: OrderObject, price: real): (r: Result<OrderInfo>)
    requires o.info.category == Stop
    ensures price <= 0.0 <==> r == Err(ArgumentOutOfRange(PriceArg))
    ensures r.Ok? ==> r.value.conditionPrice == price && r.value.price == 0.0
    ensures r.Ok? ==> r.value.size == Extensions.GetSize(o.orderParams.lots)
    ensures r.Ok? ==> r.value.order == BaseOrder.Key(o) && r.value.orderAction == o.orderParams.action
                      && r.value.orderExit == o.orderParams.exitTypeInfo
  {
    if price <= 0.0 then Err(ArgumentOutOfRange(PriceArg))
    else Ok(BaseOrder.Emit(o, price, 0.0, Extensions.GetSize(o.orderParams.lots)))
  }

  /** `Send(price, numLots)`: the price is checked first, then the count;
      zero lots means `Send(price)`, a positive count changes only the size. */
  function SendLots(o: OrderObject, price: real, numLots: int): (r: Result<OrderInfo>)
    requires o.info.category == Stop
    ensures price <= 0.0 ==> r == Err(ArgumentOutOfRange(PriceArg))
    ensures price > 0.0 && numLots < 0 ==> r == Err(ArgumentOutOfRange(NumLotsArg))
    ensures numLots == 0 ==> r == Send(o, price)
    ensures price > 0.0 && numLots > 0 ==>
      r == Ok(Send(o, price).value.(size := Extensions.GetSizeWithLots(o.orderParams.lots, numLots)))
  {
    if price <= 0.0 then Err(ArgumentOutOfRange(PriceArg))
    else if numLots < 0 then Err(ArgumentOutOfRange(NumLotsArg))
    else if numLots == 0 then Send(o, price)
    else Ok(BaseOrder.Emit(o, price, 0.0, Extensions.GetSizeWithLots(o.orderParams.lots, numLots)))
  }
}
