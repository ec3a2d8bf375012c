/** Market orders: sent without a price and filled as soon as they are
    accepted. */
module MarketOrder {
  import opened Errors
  import opened Orders
  import Extensions
  import BaseOrder

  function New(orderParams: OrderParameters, openNext: bool): (o: OrderObject)
    ensures o.info.category == Market && o.orderParams == orderParams && o.info.onClose == openNext
  {
    BaseOrder.New(orderParams, Market, openNext)
  }

  /** `Send()`: no price, no condition price, the default size for the lots. */
  function Send(o: OrderObject): (info: OrderInfo)
    requires o.info.category == Market
    ensures info.order == BaseOrder.Key(o)
    ensures info.orderAction == o.orderParams.action && info.orderExit == o.orderParams.exitTypeInfo
    ensures info.price == 0.0 && info.conditionPrice == 0.0
    ensures info.size == Extensions.GetSize(o.orderParams.lots)
  {
    BaseOrder.Emit(o, 0.0, 0.0, Extensions.GetSize(o.orderParams.lots))
  }

  /** `Send(numLots)`: a negative count is refused, zero means `Send()`, and
      a positive count differs from `Send()` only in the resolved size. */
  function SendLots(o: OrderObject, numLots: int): (r: Result<OrderInfo>)
    requires o.info.category == Market
    ensures numLots < 0 <==> r == Err(ArgumentOutOfRange(NumLotsArg))
    ensures numLots == 0 ==> r == Ok(Send(o))
    ensures numLots > 0 ==> r == Ok(Send(o).(size := Extensions.GetSizeWithLots(o.orderParams.lots, numLots)))
  {
    if numLots < 0 then Err(ArgumentOutOfRange(NumLotsArg))
    else if numLots == 0 then Ok(Send(o))
    else Ok(BaseOrder.Emit(o, 0.0, 0.0, Extensions.GetSizeWithLots(o.orderParams.lots, numLots)))
  }
}
