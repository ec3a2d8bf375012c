/** The order vocabulary: the trading platform's parameter types, reduced to
    the fields the engine reads, and the `OrderInfo` snapshot that a sent
    order carries. */
module Orders {

  datatype OrderAction = Buy | Sell | SellShort | BuyToCover

  /** The platform's exit styles; only `All` ("close the whole position") is
      supported by the books, every other style is kept as an opaque code. */
  datatype ExitType = All | OtherExit(code: int)

  /** An exit descriptor.  `detail` stands for the rest of the platform's
      descriptor (which entry it exits, for one), so that two descriptors of
      one type can still differ. */
  datatype OrderExit = OrderExit(exitType: ExitType, detail: int)

  const FromAll: OrderExit := OrderExit(All, 0)

  /** The platform's lot specification: a contract count, a lot-type code and
      whether the count was given by the user. */
  datatype Contracts = Contracts(contract: int, lotsType: int, isUserSpecified: bool)

  /** The parameters a strategy builds an order from. */
  datatype OrderParameters = OrderParameters(
    name: string,
    action: OrderAction,
    exitTypeInfo: OrderExit,
    lots: Contracts)

  /** The order category, which here also stands for the order's class:
      each of the four order classes passes one fixed category. */
  datatype OrderCategory = Market | Limit | Stop | StopLimit

  /** The platform's order descriptor (the `Info` of an order object). */
  datatype OrderDescriptor = OrderDescriptor(
    name: string,
    action: OrderAction,
    category: OrderCategory,
    lots: Contracts,
    onClose: bool,
    exitTypeInfo: OrderExit)

  /** An order object: the parameters it was built from and its descriptor. */
  datatype OrderObject = OrderObject(orderParams: OrderParameters, info: OrderDescriptor)

  /** Everything the order-object equality consults, and nothing else: two
      order objects are equal exactly when their keys are. */
  datatype OrderKey = OrderKey(
    category: OrderCategory,
    name: string,
    action: OrderAction,
    exitTypeInfo: OrderExit,
    contract: int,
    lotsType: int,
    onClose: bool)

  /** The snapshot a sent order carries.  Its equality compares every field,
      prices and size included, and the originating order through its key. */
  datatype OrderInfo = OrderInfo(
    conditionPrice: real,
    price: real,
    size: int,
    orderAction: OrderAction,
    order: OrderKey,
    orderExit: OrderExit)
}
