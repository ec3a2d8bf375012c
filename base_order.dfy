/** What all order classes share: construction, the logical identity of an
    order object, and the snapshot a `Send` emits. */
module BaseOrder {
  import opened Errors
  import opened Orders

  /** Builds an order object: the parameters are kept as given and the
      descriptor records them with the category and the open-next flag. */
  function New(orderParams: OrderParameters, category: OrderCategory, openNext: bool): (o: OrderObject)
    ensures o.orderParams == orderParams
    ensures o.info.category == category && o.info.onClose == openNext
    ensures o.info.name == orderParams.name && o.info.action == orderParams.action
    ensures o.info.lots == orderParams.lots && o.info.exitTypeInfo == orderParams.exitTypeInfo
  {
    OrderObject(orderParams,
      OrderDescriptor(orderParams.name, orderParams.action, category, orderParams.lots,
                      openNext, orderParams.exitTypeInfo))
  }

  /** The fields the equality of order objects consults. */
  function Key(o: OrderObject): OrderKey
  {
    OrderKey(o.info.category, o.orderParams.name, o.orderParams.action,
             o.orderParams.exitTypeInfo, o.orderParams.lots.contract,
             o.orderParams.lots.lotsType, o.info.onClose)
  }

  /** What an order object can be compared with: nothing, another order
      object, or an object of some other class. */
  datatype Other = Null | AnOrder(obj: OrderObject) | NotAnOrder

  /** Order-object equality: false for nothing and for another class;
      otherwise a conjunction of field equalities, so prices and sizes,
      which an order object does not hold, never take part. */
  predicate Equals(o: OrderObject, other: Other)
    ensures Equals(o, other) <==> other.AnOrder? && Key(other.obj) == Key(o)
  {
    other.AnOrder?
    && other.obj.info.category == o.info.category   // same class
    && other.obj.orderParams.name == o.orderParams.name
    && other.obj.orderParams.action == o.orderParams.action
    && other.obj.orderParams.exitTypeInfo == o.orderParams.exitTypeInfo
    && other.obj.orderParams.lots.contract == o.orderParams.lots.contract
    && other.obj.orderParams.lots.lotsType == o.orderParams.lots.lotsType
    && other.obj.info.category == o.info.category
    && other.obj.info.onClose == o.info.onClose
  }

  lemma EqualsIsAnEquivalence(a: OrderObject, b: OrderObject, c: OrderObject)
    ensures Equals(a, AnOrder(a))
    ensures Equals(a, AnOrder(b)) ==> Equals(b, AnOrder(a))
    ensures Equals(a, AnOrder(b)) && Equals(b, AnOrder(c)) ==> Equals(a, AnOrder(c))
  {
  }

  /** Two order objects built from parameters that differ only in whether the
      lots are user-specified are still equal. */
  lemma EqualsIgnoresUserSpecifiedFlag(p: OrderParameters, category: OrderCategory, openNext: bool)
    ensures var q := p.(lots := p.lots.(isUserSpecified := !p.lots.isUserSpecified));
            Equals(New(p, category, openNext), AnOrder(New(q, category, openNext)))
  {
  }

  /** The snapshot an order object emits when it is sent: its own action and
      exit, the given prices and size, and itself as the originating order. */
  function Emit(o: OrderObject, conditionPrice: real, price: real, size: int): (info: OrderInfo)
    ensures info.order == Key(o) && Equals(o, AnOrder(o))
    ensures info.orderAction == o.orderParams.action && info.orderExit == o.orderParams.exitTypeInfo
    ensures info.conditionPrice == conditionPrice && info.price == price && info.size == size
  {
    OrderInfo(conditionPrice, price, size, o.orderParams.action, Key(o), o.orderParams.exitTypeInfo)
  }

  /** The `Send` overloads that take a new name or an entry to exit from are
      not implemented by any order class. */
  function SendByName(o: OrderObject, newName: Option<string>, fromName: Option<string>): (r: Result<OrderInfo>)
    ensures r == Err(NotImplemented)
  {
    Err(NotImplemented)
  }
}
