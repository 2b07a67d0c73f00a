/**
 * The entity records of the Venus core-pool subgraph that the vToken and
 * comptroller mappings read and write. Every numeric field is a mantissa or a
 * counter held as an unbounded integer: the mappings never guard against a
 * negative count or balance, so none of these is a `nat`.
 */
module Entities {

  /** Contract and account addresses, as the lower-case hex strings the mappings use as ids. */
  type Address = string

  /** Repay events that leave at most this much borrowed count the borrower as gone from the adjusted count. */
  const DUST_THRESHOLD: int := 10

  /** exponentToBigInt(18): the scale of an exchange-rate mantissa. */
  const EXP_SCALE: int := 1_000_000_000_000_000_000

  /**
   * A listed vToken market. The store keys it by the vToken address, which is
   * also the record's id; since the id never changes, the record does not
   * repeat it (likewise for the records below).
   */
  datatype Market = Market(
    symbol: string,
    supplierCount: int,
    borrowerCount: int,
    borrowerCountAdjusted: int,
    exchangeRateMantissa: int,
    borrowIndexMantissa: int,
    reserveFactor: int,
    interestRateModelAddress: Address,
    collateralFactorMantissa: int,
    totalXvsDistributedMantissa: int)

  /** An account that has borrowed, been liquidated or liquidated someone, keyed by its address. */
  datatype Account = Account(
    hasBorrowed: bool,
    countLiquidated: int,
    countLiquidator: int)

  /** One account's position in one market, keyed by the (market, account) pair. */
  datatype AccountVToken = AccountVToken(
    symbol: string,
    enteredMarket: bool,
    vTokenBalanceMantissa: int,
    storedBorrowBalanceMantissa: int,
    accountBorrowIndexMantissa: int,
    totalUnderlyingSuppliedMantissa: int,
    totalUnderlyingRedeemedMantissa: int,
    totalUnderlyingBorrowedMantissa: int,
    totalUnderlyingRepaidMantissa: int)

  /** The singleton comptroller record. */
  datatype Comptroller = Comptroller(
    closeFactor: int,
    liquidationIncentive: int,
    priceOracle: Address)

  /** The record createMarket / getOrCreateMarket saves for a vToken seen for the first time. */
  function NewMarket(): Market
  {
    Market("", 0, 0, 0, 0, 0, 0, "", 0, 0)
  }

  /** The record createAccount / getOrCreateAccount saves for a new address. */
  function NewAccount(): Account
  {
    Account(false, 0, 0)
  }

  /**
   * The record this model's getOrCreateAccountVToken saves for a (market,
   * account) pair seen for the first time: every amount zero. The source
   * also reads the account's snapshot from the vToken contract when it
   * creates a position; that read is not part of this model.
   */
  function NewAccountVToken(symbol: string): AccountVToken
  {
    AccountVToken(symbol, false, 0, 0, 0, 0, 0, 0, 0)
  }

  /** The record getOrCreateComptroller saves the first time it is asked for. */
  function NewComptroller(): Comptroller
  {
    Comptroller(0, 0, "")
  }
}
