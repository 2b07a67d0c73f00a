/**
 * The event sequences of the vToken handler tests, with the counts and
 * amounts the tests expect. The count sequences are stated of the handlers'
 * specifications (which the handlers are proved to follow); the transfer is
 * run through the handler on a Store. The market is listed first
 * (createMarket), as in the tests' setup; its contract reads are not part of
 * this model, so a market needing a stored exchange rate is given it directly.
 */
module Scenarios {
  import opened Entities
  import opened EntityStore
  import opened Events
  import opened VTokenMappings

  // The tests' addresses, with their leading zeros dropped.
  const AAA: Address := "0xaaa"
  const USER1: Address := "0x101"
  const USER2: Address := "0x202"
  const USER3: Address := "0x303"
  const USER4: Address := "0x404"

  /** Every V1 event in the supplier sequence asks balanceOf for the one account it names. */
  function BalanceOfOnly(account: Address, balance: int): Address -> int
  {
    a => if a == account then balance else 0
  }

  function SupplierCount(st: State): int
  {
    MarketOf(st, AAA).supplierCount
  }

  function BorrowerCounts(st: State): (int, int)
  {
    (MarketOf(st, AAA).borrowerCount, MarketOf(st, AAA).borrowerCountAdjusted)
  }

  /** The store right after the market is listed. */
  const Listed: State := Empty.(markets := map[AAA := NewMarket()])

  /**
   * Four suppliers each mint 10 vTokens (two through the V1 events, two on
   * someone's behalf); one redeems everything, one redeems half, then all.
   * The supplier count goes 0, 1, 2, 3, 4, 3, 3, 2.
   */
  lemma SupplierCountSequence()
    ensures var s1 := Mint(Listed, MintEvent(AAA, USER1, 12, 10, 10));
      var s2 := MintV1(s1, MintV1Event(AAA, USER2, 12, 10), BalanceOfOnly(USER2, 10));
      var s3 := MintBehalf(s2, MintBehalfEvent(AAA, USER1, USER3, 12, 10, 10));
      var s4 := MintBehalfV1(s3, MintBehalfV1Event(AAA, USER1, USER4, 12, 10), BalanceOfOnly(USER4, 10));
      var s5 := Redeem(s4, RedeemEvent(AAA, USER2, 12, 10, 0));
      var s6 := RedeemV1(s5, RedeemV1Event(AAA, USER1, 6, 5), BalanceOfOnly(USER1, 5));
      var s7 := Redeem(s6, RedeemEvent(AAA, USER1, 6, 5, 0));
      [SupplierCount(Listed), SupplierCount(s1), SupplierCount(s2), SupplierCount(s3), SupplierCount(s4),
       SupplierCount(s5), SupplierCount(s6), SupplierCount(s7)]
        == [0, 1, 2, 3, 4, 3, 3, 2]
  {
  }

  /**
   * Two accounts borrow 22 each; the second repays everything; the first
   * repays down to 11 (not dust), then to 10 (dust). The pair
   * (borrowerCount, borrowerCountAdjusted) goes (0, 0), (1, 1), (2, 2),
   * (1, 1), (1, 1), (1, 0).
   */
  lemma BorrowerCountSequence()
    ensures var s1 := Borrow(Listed, BorrowEvent(AAA, USER1, 22, 22, 22));
      var s2 := Borrow(s1, BorrowEvent(AAA, USER2, 22, 22, 22));
      var s3 := RepayBorrow(s2, RepayBorrowEvent(AAA, USER2, USER2, 22, 0, 0));
      var s4 := RepayBorrow(s3, RepayBorrowEvent(AAA, USER1, USER1, 11, 11, 11));
      var s5 := RepayBorrow(s4, RepayBorrowEvent(AAA, USER1, USER1, 1, 10, 10));
      [BorrowerCounts(Listed), BorrowerCounts(s1), BorrowerCounts(s2), BorrowerCounts(s3),
       BorrowerCounts(s4), BorrowerCounts(s5)]
        == [(0, 0), (1, 1), (2, 2), (1, 1), (1, 1), (1, 0)]
  {
  }

  /**
   * The adjusted count drops once for each repay that leaves dust and once
   * more when the debt reaches zero, so a single borrower who first repays
   * down to dust and then in full takes it from 1 to -1.
   */
  lemma DustThenFullRepaySequence()
    ensures var s1 := Borrow(Listed, BorrowEvent(AAA, USER1, 22, 22, 22));
      var s2 := RepayBorrow(s1, RepayBorrowEvent(AAA, USER1, USER1, 12, 10, 10));
      var s3 := RepayBorrow(s2, RepayBorrowEvent(AAA, USER1, USER1, 10, 0, 0));
      [BorrowerCounts(s1), BorrowerCounts(s2), BorrowerCounts(s3)] == [(1, 1), (1, 0), (0, -1)]
  {
  }

  /**
   * A transfer of 146205398726345 vTokens from an account back to the market
   * at the stored exchange rate 365045823500000000000000 is recorded as
   * 53371670178204461670 underlying redeemed by the sender, whose borrow
   * index stays 0.
   */
  method TransferScenario() returns (redeemed: int, borrowIndex: int)
    ensures redeemed == 53371670178204461670
    ensures borrowIndex == 0
  {
    var store := new Store();
    var market := store.CreateMarket(AAA);
    store.SaveMarket(AAA, market.(exchangeRateMantissa := 365045823500000000000000));

    HandleTransfer(store, TransferEvent(AAA, USER1, AAA, 146205398726345));
    redeemed := store.positions[(AAA, USER1)].totalUnderlyingRedeemedMantissa;
    borrowIndex := store.positions[(AAA, USER1)].accountBorrowIndexMantissa;
  }
}
