/** Lot-count resolution for the order `Send` overloads. */
module Extensions {
  import opened Orders

  /** The size used when the lots are not user-specified. */
  const DefaultSize: int := 100

  /** The size of an order sent without an explicit lot count. */
  function GetSize(contracts: Contracts): (size: int)
    ensures !contracts.isUserSpecified ==> size == DefaultSize
    ensures contracts.isUserSpecified ==> size == contracts.contract
  {
    var size := DefaultSize;
    if contracts.isUserSpecified then contracts.contract else size
  }

  /** The size of an order sent with `numLots`: the lot count wins only for
      user-specified lots; otherwise it is ignored. */
  function GetSizeWithLots(contracts: Contracts, numLots: int): (size: int)
    ensures !contracts.isUserSpecified ==> size == GetSize(contracts) == DefaultSize
    ensures contracts.isUserSpecified ==> size == numLots
  {
    var size := GetSize(contracts);
    if contracts.isUserSpecified then numLots else size
  }

  /** Without user-specified lots the requested lot count has no effect. */
  lemma LotsIgnoredByDefault(contracts: Contracts, m: int, n: int)
    requires !contracts.isUserSpecified
    ensures GetSizeWithLots(contracts, m) == GetSizeWithLots(contracts, n) == GetSize(contracts)
  {
  }
}
