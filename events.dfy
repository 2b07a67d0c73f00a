/**
 * The decoded on-chain events the mappings receive: one datatype per event
 * kind, holding the emitting contract's address (`vToken` for vToken events)
 * and the event's parameters. Transaction hash, block number, timestamp and
 * log index are not carried: nothing modelled here reads them.
 */
module Events {
  import opened Entities

  // Events emitted by a vToken contract.

  datatype MintEvent = MintEvent(vToken: Address, minter: Address, mintAmount: int, mintTokens: int, totalSupply: int)

  datatype MintBehalfEvent = MintBehalfEvent(
    vToken: Address, payer: Address, receiver: Address, mintAmount: int, mintTokens: int, totalSupply: int)

  datatype RedeemEvent = RedeemEvent(
    vToken: Address, redeemer: Address, redeemAmount: int, redeemTokens: int, totalSupply: int)

  /** The V1 forms carry no resulting balance: the handler asks the contract's balanceOf. */
  datatype MintV1Event = MintV1Event(vToken: Address, minter: Address, mintAmount: int, mintTokens: int)

  datatype MintBehalfV1Event = MintBehalfV1Event(
    vToken: Address, payer: Address, receiver: Address, mintAmount: int, mintTokens: int)

  datatype RedeemV1Event = RedeemV1Event(vToken: Address, redeemer: Address, redeemAmount: int, redeemTokens: int)

  datatype BorrowEvent = BorrowEvent(
    vToken: Address, borrower: Address, borrowAmount: int, accountBorrows: int, totalBorrows: int)

  datatype RepayBorrowEvent = RepayBorrowEvent(
    vToken: Address, payer: Address, borrower: Address, repayAmount: int, accountBorrows: int, totalBorrows: int)

  datatype LiquidateBorrowEvent = LiquidateBorrowEvent(
    vToken: Address, liquidator: Address, borrower: Address, repayAmount: int,
    vTokenCollateral: Address, seizeTokens: int)

  datatype TransferEvent = TransferEvent(vToken: Address, from: Address, to: Address, amount: int)

  datatype NewReserveFactorEvent = NewReserveFactorEvent(
    vToken: Address, oldReserveFactorMantissa: int, newReserveFactorMantissa: int)

  datatype NewMarketInterestRateModelEvent = NewMarketInterestRateModelEvent(
    vToken: Address, oldInterestRateModel: Address, newInterestRateModel: Address)

  // Events emitted by the comptroller.

  datatype MarketEnteredEvent = MarketEnteredEvent(vToken: Address, account: Address)

  datatype MarketExitedEvent = MarketExitedEvent(vToken: Address, account: Address)

  datatype NewCloseFactorEvent = NewCloseFactorEvent(oldCloseFactorMantissa: int, newCloseFactorMantissa: int)

  datatype NewCollateralFactorEvent = NewCollateralFactorEvent(
    vToken: Address, oldCollateralFactorMantissa: int, newCollateralFactorMantissa: int)

  datatype NewLiquidationIncentiveEvent = NewLiquidationIncentiveEvent(
    oldLiquidationIncentiveMantissa: int, newLiquidationIncentiveMantissa: int)

  datatype NewPriceOracleEvent = NewPriceOracleEvent(oldPriceOracle: Address, newPriceOracle: Address)

  /** DistributedSupplierVenus, and DistributedBorrowerVenus, which has the same shape. */
  datatype XvsDistributedEvent = XvsDistributedEvent(
    vToken: Address, recipient: Address, venusDelta: int, venusIndex: int)
}
