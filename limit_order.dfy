/** Limit orders: the price is the fill price and there is no condition
    price. */
module LimitOrder {
  import opened Errors
  import opened Orders
  import Extensions
  import BaseOrder

  function New(orderParams: OrderParameters, openNext: bool): (o: OrderObject)
    ensures o.info.category == Limit && o.orderParams == orderParams && o.info.onClose == openNext
  {
    BaseOrder.New(orderParams, Limit, openNext)
  }

  /** `Send(price)`: a price that is not positive is refused; otherwise the
      snapshot carries that price and no condition price. */
  function Send(o: OrderObject, price: real): (r: Result<OrderInfo>)
    requires o.info.category == Limit
    ensures price <= 0.0 <==> r == Err(ArgumentOutOfRange(PriceArg))
    ensures r.Ok? ==> r.value.price == price && r.value.conditionPrice == 0.0
    ensures r.Ok? ==> r.value.size == Extensions.GetSize(o.orderParams.lots)
    ensures r.Ok? ==> r.value.order == BaseOrder.Key(o) && r.value.orderAction == o.orderParams.action
                      && r.value.orderExit == o.orderParams.exitTypeInfo
  {
    if price <= 0.0 then Err(ArgumentOutOfRange(PriceArg))
    else Ok(BaseOrder.Emit(o, 0.0, price, Extensions.GetSize(o.orderParams.lots)))
  }

  /** `Send(price, numLots)`: the price is checked first, then the count;
      zero lots means `Send(price)`, a positive count changes only the size. */
  function SendLots(o: OrderObject, price: real, numLots: int): (r: Result<OrderInfo>)
    requires o.info.category == Limit
    ensures price <= 0.0 ==> r == Err(ArgumentOutOfRange(PriceArg))
    ensures price > 0.0 && numLots < 0 ==> r == Err(ArgumentOutOfRange(NumLotsArg))
    ensures numLots == 0 ==> r == Send(o, price)
    ensures price > 0.0 && numLots > 0 ==>
      r == Ok(Send(o, price).value.(size := Extensions.GetSizeWithLots(o.orderParams.lots, numLots)))
  {
    if price <= 0.0 then Err(ArgumentOutOfRange(PriceArg))
    else if numLots < 0 then Err(ArgumentOutOfRange(NumLotsArg))
    else if numLots == 0 then Send(o, price)
    else Ok(BaseOrder.Emit(o, 0.0, price, Extensions.GetSizeWithLots(o.orderParams.lots, numLots)))
  }
}
