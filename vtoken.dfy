/**
 * The vToken event handlers (mappings/vToken.ts). Each handler is a method
 * that loads or creates records in the Store, changes a few fields of its
 * local copies and saves them; each is proved to leave the store in the state
 * that a pure function of the same name (without "Handle") gives for the old
 * state. The functions' own postconditions state what the source promises:
 * which counters move and when, which position fields are overwritten or
 * accumulated, and that nothing else in the store changes.
 */
module VTokenMappings {
  import opened Entities
  import opened EntityStore
  import opened Events

  /** graph-ts BigInt.div: the quotient truncated toward zero (Dafny's own / is Euclidean). */
  function BigIntDiv(a: int, b: int): (q: int)
    requires b > 0
    ensures 0 <= a ==> 0 <= q && q * b <= a < q * b + b
    ensures a < 0 ==> q <= 0 && q * b - b < a <= q * b
  {
    if a >= 0 then a / b else -((-a) / b)
  }

  /** The underlying amount a Transfer of `amount` vTokens stands for at the market's stored exchange rate. */
  function ToUnderlying(exchangeRateMantissa: int, amount: int): (u: int)
    ensures 0 <= exchangeRateMantissa * amount ==>
      0 <= u && u * EXP_SCALE <= exchangeRateMantissa * amount < u * EXP_SCALE + EXP_SCALE
  {
    BigIntDiv(exchangeRateMantissa * amount, EXP_SCALE)
  }

  /**
   * At a non-negative exchange rate, splitting a transfer of a + b vTokens
   * into transfers of a and of b records at most one unit of underlying
   * less, and never more, than the single transfer.
   */
  lemma ToUnderlyingSplit(exchangeRateMantissa: int, a: int, b: int)
    requires exchangeRateMantissa >= 0 && a >= 0 && b >= 0
    ensures ToUnderlying(exchangeRateMantissa, a) + ToUnderlying(exchangeRateMantissa, b)
         <= ToUnderlying(exchangeRateMantissa, a + b)
         <= ToUnderlying(exchangeRateMantissa, a) + ToUnderlying(exchangeRateMantissa, b) + 1
  {
    assert exchangeRateMantissa * (a + b) == exchangeRateMantissa * a + exchangeRateMantissa * b;
    assert 0 <= exchangeRateMantissa * a && 0 <= exchangeRateMantissa * b;
  }

  /** The conversion the transfer test expects: 146205398726345 vTokens at rate 365045823500000000000000. */
  lemma ToUnderlyingExample()
    ensures ToUnderlying(365045823500000000000000, 146205398726345) == 53371670178204461670
  {
  }

  /**
   * An account's vToken balance in a market as the store records it; 0 for a
   * position never created, since this model does not seed a new position
   * from the account's on-chain snapshot.
   */
  function Balance(st: State, vToken: Address, account: Address): int
  {
    PositionOf(st, vToken, account).vTokenBalanceMantissa
  }

  // ---------------------------------------------------------------- supply

  /**
   * Mint, MintBehalf and their V1 forms: the market is created if missing, and
   * its supplierCount goes up by one exactly when the vTokens just minted are
   * the receiving account's whole resulting balance; nothing else changes.
   */
  function Minted(st: State, vToken: Address, mintTokens: int, resultingBalance: int): (r: State)
    ensures MarketsOnly(st, r, {vToken})
    ensures r.accounts == st.accounts && r.positions == st.positions && r.comptroller == st.comptroller
    ensures mintTokens == resultingBalance ==>
      r.markets[vToken] == MarketOf(st, vToken).(supplierCount := MarketOf(st, vToken).supplierCount + 1)
    ensures mintTokens != resultingBalance ==> r.markets[vToken] == MarketOf(st, vToken)
  {
    var m := MarketOf(st, vToken);
    st.(markets := st.markets[vToken :=
      if mintTokens == resultingBalance then m.(supplierCount := m.supplierCount + 1) else m])
  }

  /**
   * Redeem and RedeemV1: the market is created if missing, and its
   * supplierCount goes down by one exactly when the redeemer's resulting
   * balance is zero; nothing else changes.
   */
  function Redeemed(st: State, vToken: Address, resultingBalance: int): (r: State)
    ensures MarketsOnly(st, r, {vToken})
    ensures r.accounts == st.accounts && r.positions == st.positions && r.comptroller == st.comptroller
    ensures resultingBalance == 0 ==>
      r.markets[vToken] == MarketOf(st, vToken).(supplierCount := MarketOf(st, vToken).supplierCount - 1)
    ensures resultingBalance != 0 ==> r.markets[vToken] == MarketOf(st, vToken)
  {
    var m := MarketOf(st, vToken);
    st.(markets := st.markets[vToken :=
      if resultingBalance == 0 then m.(supplierCount := m.supplierCount - 1) else m])
  }

  function Mint(st: State, ev: MintEvent): State
  {
    Minted(st, ev.vToken, ev.mintTokens, ev.totalSupply)
  }

  function MintBehalf(st: State, ev: MintBehalfEvent): State
  {
    Minted(st, ev.vToken, ev.mintTokens, ev.totalSupply)
  }

  function Redeem(st: State, ev: RedeemEvent): State
  {
    Redeemed(st, ev.vToken, ev.totalSupply)
  }

  /** `balanceOf` is the vToken contract's balanceOf at the event's block. */
  function MintV1(st: State, ev: MintV1Event, balanceOf: Address -> int): State
  {
    Minted(st, ev.vToken, ev.mintTokens, balanceOf(ev.minter))
  }

  function MintBehalfV1(st: State, ev: MintBehalfV1Event, balanceOf: Address -> int): State
  {
    Minted(st, ev.vToken, ev.mintTokens, balanceOf(ev.receiver))
  }

  function RedeemV1(st: State, ev: RedeemV1Event, balanceOf: Address -> int): State
  {
    Redeemed(st, ev.vToken, balanceOf(ev.redeemer))
  }

  /**
   * An account that becomes a supplier with a mint and then redeems its
   * whole balance leaves the market's supplier count where it was.
   */
  lemma MintThenRedeemAllRestoresSupplierCount(st: State, mint: MintEvent, redeem: RedeemEvent)
    requires mint.mintTokens == mint.totalSupply
    requires redeem.vToken == mint.vToken && redeem.totalSupply == 0
    ensures MarketOf(Redeem(Mint(st, mint), redeem), mint.vToken).supplierCount
         == MarketOf(st, mint.vToken).supplierCount
  {
  }

  /** A supply event moves the supplier count of its market by at most one, and no other market's. */
  lemma SupplyMovesCountByAtMostOne(st: State, vToken: Address, mintTokens: int, resultingBalance: int)
    ensures var r := Minted(st, vToken, mintTokens, resultingBalance);
      && MarketOf(st, vToken).supplierCount <= MarketOf(r, vToken).supplierCount <= MarketOf(st, vToken).supplierCount + 1
      && forall k :: k != vToken ==> MarketOf(r, k) == MarketOf(st, k)
    ensures var r := Redeemed(st, vToken, resultingBalance);
      && MarketOf(st, vToken).supplierCount - 1 <= MarketOf(r, vToken).supplierCount <= MarketOf(st, vToken).supplierCount
      && forall k :: k != vToken ==> MarketOf(r, k) == MarketOf(st, k)
  {
  }

  method HandleMint(store: Store, ev: MintEvent)
    modifies store
    ensures store.Snapshot() == Mint(old(store.Snapshot()), ev)
  {
    var market := store.GetOrCreateMarket(ev.vToken);
    if ev.mintTokens == ev.totalSupply {
      market := market.(supplierCount := market.supplierCount + 1);
      store.SaveMarket(ev.vToken, market);
    }
  }

  method HandleMintBehalf(store: Store, ev: MintBehalfEvent)
    modifies store
    ensures store.Snapshot() == MintBehalf(old(store.Snapshot()), ev)
  {
    var market := store.GetOrCreateMarket(ev.vToken);
    if ev.mintTokens == ev.totalSupply {
      market := market.(supplierCount := market.supplierCount + 1);
      store.SaveMarket(ev.vToken, market);
    }
  }

  method HandleRedeem(store: Store, ev: RedeemEvent)
    modifies store
    ensures store.Snapshot() == Redeem(old(store.Snapshot()), ev)
  {
    var market := store.GetOrCreateMarket(ev.vToken);
    if ev.totalSupply == 0 {
      market := market.(supplierCount := market.supplierCount - 1);
      store.SaveMarket(ev.vToken, market);
    }
  }

  method HandleMintV1(store: Store, ev: MintV1Event, balanceOf: Address -> int)
    modifies store
    ensures store.Snapshot() == MintV1(old(store.Snapshot()), ev, balanceOf)
  {
    var market := store.GetOrCreateMarket(ev.vToken);
    if ev.mintTokens == balanceOf(ev.minter) {
      market := market.(supplierCount := market.supplierCount + 1);
      store.SaveMarket(ev.vToken, market);
    }
  }

  method HandleMintBehalfV1(store: Store, ev: MintBehalfV1Event, balanceOf: Address -> int)
    modifies store
    ensures store.Snapshot() == MintBehalfV1(old(store.Snapshot()), ev, balanceOf)
  {
    var market := store.GetOrCreateMarket(ev.vToken);
    if ev.mintTokens == balanceOf(ev.receiver) {
      market := market.(supplierCount := market.supplierCount + 1);
      store.SaveMarket(ev.vToken, market);
    }
  }

  method HandleRedeemV1(store: Store, ev: RedeemV1Event, balanceOf: Address -> int)
    modifies store
    ensures store.Snapshot() == RedeemV1(old(store.Snapshot()), ev, balanceOf)
  {
    var market := store.GetOrCreateMarket(ev.vToken);
    if balanceOf(ev.redeemer) == 0 {
      market := market.(supplierCount := market.supplierCount - 1);
      store.SaveMarket(ev.vToken, market);
    }
  }

  // ---------------------------------------------------------------- borrow

  /**
   * Borrow: a borrower whose whole debt is this borrow is new, and both
   * borrower counts go up by one; the borrower is marked as having borrowed;
   * its position records the debt and the market's borrow index and adds the
   * borrowed amount to its running total. Nothing else changes.
   */
  function Borrow(st: State, ev: BorrowEvent): (r: State)
    ensures MarketsOnly(st, r, {ev.vToken})
    ensures AccountsOnly(st, r, {ev.borrower})
    ensures PositionsOnly(st, r, {(ev.vToken, ev.borrower)})
    ensures r.comptroller == st.comptroller
    ensures var m := MarketOf(st, ev.vToken);
      r.markets[ev.vToken] ==
        if ev.accountBorrows == ev.borrowAmount
        then m.(borrowerCount := m.borrowerCount + 1, borrowerCountAdjusted := m.borrowerCountAdjusted + 1)
        else m
    ensures r.accounts[ev.borrower] == AccountOf(st, ev.borrower).(hasBorrowed := true)
    ensures var p := PositionOf(st, ev.vToken, ev.borrower);
      r.positions[(ev.vToken, ev.borrower)] == p.(
        storedBorrowBalanceMantissa := ev.accountBorrows,
        accountBorrowIndexMantissa := MarketOf(st, ev.vToken).borrowIndexMantissa,
        totalUnderlyingBorrowedMantissa := p.totalUnderlyingBorrowedMantissa + ev.borrowAmount)
  {
    var m := MarketOf(st, ev.vToken);
    var p := PositionOf(st, ev.vToken, ev.borrower);
    var newBorrower := ev.accountBorrows == ev.borrowAmount;
    State(
      st.markets[ev.vToken :=
        if newBorrower
        then m.(borrowerCount := m.borrowerCount + 1, borrowerCountAdjusted := m.borrowerCountAdjusted + 1)
        else m],
      st.accounts[ev.borrower := AccountOf(st, ev.borrower).(hasBorrowed := true)],
      st.positions[(ev.vToken, ev.borrower) := p.(
        storedBorrowBalanceMantissa := ev.accountBorrows,
        accountBorrowIndexMantissa := m.borrowIndexMantissa,
        totalUnderlyingBorrowedMantissa := p.totalUnderlyingBorrowedMantissa + ev.borrowAmount)],
      st.comptroller)
  }

  /**
   * RepayBorrow: a borrower left owing nothing is gone from both counts; one
   * left owing a non-zero amount up to DUST_THRESHOLD is gone from the
   * adjusted count only; otherwise the counts stay. The position records the
   * remaining debt and the market's borrow index and adds the repaid amount
   * to its running total. The borrower account is created if missing and
   * otherwise untouched; nothing else changes.
   */
  function RepayBorrow(st: State, ev: RepayBorrowEvent): (r: State)
    ensures MarketsOnly(st, r, {ev.vToken})
    ensures AccountsOnly(st, r, {ev.borrower})
    ensures PositionsOnly(st, r, {(ev.vToken, ev.borrower)})
    ensures r.comptroller == st.comptroller
    ensures var m := MarketOf(st, ev.vToken);
      r.markets[ev.vToken] ==
        if ev.accountBorrows == 0
        then m.(borrowerCount := m.borrowerCount - 1, borrowerCountAdjusted := m.borrowerCountAdjusted - 1)
        else if ev.accountBorrows <= DUST_THRESHOLD
        then m.(borrowerCountAdjusted := m.borrowerCountAdjusted - 1)
        else m
    ensures r.accounts[ev.borrower] == AccountOf(st, ev.borrower)
    ensures var p := PositionOf(st, ev.vToken, ev.borrower);
      r.positions[(ev.vToken, ev.borrower)] == p.(
        storedBorrowBalanceMantissa := ev.accountBorrows,
        accountBorrowIndexMantissa := MarketOf(st, ev.vToken).borrowIndexMantissa,
        totalUnderlyingRepaidMantissa := p.totalUnderlyingRepaidMantissa + ev.repayAmount)
  {
    var m := MarketOf(st, ev.vToken);
    var p := PositionOf(st, ev.vToken, ev.borrower);
    State(
      st.markets[ev.vToken :=
        if ev.accountBorrows == 0
        then m.(borrowerCount := m.borrowerCount - 1, borrowerCountAdjusted := m.borrowerCountAdjusted - 1)
        else if ev.accountBorrows <= DUST_THRESHOLD
        then m.(borrowerCountAdjusted := m.borrowerCountAdjusted - 1)
        else m],
      st.accounts[ev.borrower := AccountOf(st, ev.borrower)],
      st.positions[(ev.vToken, ev.borrower) := p.(
        storedBorrowBalanceMantissa := ev.accountBorrows,
        accountBorrowIndexMantissa := m.borrowIndexMantissa,
        totalUnderlyingRepaidMantissa := p.totalUnderlyingRepaidMantissa + ev.repayAmount)],
      st.comptroller)
  }

  /**
   * A borrower who enters a market with a borrow and then repays it in full
   * leaves both of the market's borrower counts where they were.
   */
  lemma BorrowThenRepayAllRestoresCounts(st: State, b: BorrowEvent, r: RepayBorrowEvent)
    requires b.accountBorrows == b.borrowAmount
    requires r.vToken == b.vToken && r.accountBorrows == 0
    ensures var m0 := MarketOf(st, b.vToken);
      var m2 := MarketOf(RepayBorrow(Borrow(st, b), r), b.vToken);
      m2.borrowerCount == m0.borrowerCount && m2.borrowerCountAdjusted == m0.borrowerCountAdjusted
  {
  }

  /**
   * Of two reserve-factor updates to one market the later wins, and the
   * earlier leaves nothing behind; likewise for the interest rate model.
   */
  lemma MarketSettersLastWins(st: State, e1: NewReserveFactorEvent, e2: NewReserveFactorEvent,
                              m1: NewMarketInterestRateModelEvent, m2: NewMarketInterestRateModelEvent)
    requires e1.vToken == e2.vToken && m1.vToken == m2.vToken
    ensures NewReserveFactor(NewReserveFactor(st, e1), e2) == NewReserveFactor(st, e2)
    ensures NewMarketInterestRateModel(NewMarketInterestRateModel(st, m1), m2) == NewMarketInterestRateModel(st, m2)
  {
    var once := NewReserveFactor(st, e1);
    assert NewReserveFactor(once, e2).markets == NewReserveFactor(st, e2).markets;
    var model := NewMarketInterestRateModel(st, m1);
    assert NewMarketInterestRateModel(model, m2).markets == NewMarketInterestRateModel(st, m2).markets;
  }

  method HandleBorrow(store: Store, ev: BorrowEvent)
    modifies store
    ensures store.Snapshot() == Borrow(old(store.Snapshot()), ev)
  {
    var market := CountBorrower(store, ev);
    MarkBorrowed(store, ev.borrower);
    RecordBorrow(store, ev, market);
  }

  /** The market block of handleBorrow: the counts go up for a borrower whose whole debt is this borrow. */
  method CountBorrower(store: Store, ev: BorrowEvent) returns (market: Market)
    modifies store`markets
    ensures var m := MarketOf(old(store.Snapshot()), ev.vToken);
      market == if ev.accountBorrows == ev.borrowAmount
        then m.(borrowerCount := m.borrowerCount + 1, borrowerCountAdjusted := m.borrowerCountAdjusted + 1)
        else m
    ensures store.markets == old(store.markets)[ev.vToken := market]
  {
    market := store.GetOrCreateMarket(ev.vToken);
    if ev.accountBorrows == ev.borrowAmount {
      market := market.(borrowerCount := market.borrowerCount + 1,
                        borrowerCountAdjusted := market.borrowerCountAdjusted + 1);
      store.SaveMarket(ev.vToken, market);
    }
  }

  /** The account block of handleBorrow. */
  method MarkBorrowed(store: Store, borrower: Address)
    modifies store`accounts
    ensures store.accounts ==
      old(store.accounts)[borrower := AccountOf(old(store.Snapshot()), borrower).(hasBorrowed := true)]
  {
    var account := store.GetOrCreateAccount(borrower);
    account := account.(hasBorrowed := true);
    store.SaveAccount(borrower, account);
  }

  /** The position block of handleBorrow, given the market record the handler holds. */
  method RecordBorrow(store: Store, ev: BorrowEvent, market: Market)
    modifies store`positions
    ensures var k := (ev.vToken, ev.borrower);
      var p := PositionWithSymbol(old(store.Snapshot()), ev.vToken, ev.borrower, market.symbol);
      store.positions == old(store.positions)[k := p.(
        storedBorrowBalanceMantissa := ev.accountBorrows,
        accountBorrowIndexMantissa := market.borrowIndexMantissa,
        totalUnderlyingBorrowedMantissa := p.totalUnderlyingBorrowedMantissa + ev.borrowAmount)]
  {
    var position := store.GetOrCreateAccountVToken(ev.vToken, market.symbol, ev.borrower);
    position := position.(
      storedBorrowBalanceMantissa := ev.accountBorrows,
      accountBorrowIndexMantissa := market.borrowIndexMantissa,
      totalUnderlyingBorrowedMantissa := position.totalUnderlyingBorrowedMantissa + ev.borrowAmount);
    store.SaveAccountVToken(ev.vToken, ev.borrower, position);
  }

  method HandleRepayBorrow(store: Store, ev: RepayBorrowEvent)
    modifies store
    ensures store.Snapshot() == RepayBorrow(old(store.Snapshot()), ev)
  {
    var market := CountRepayer(store, ev);
    var account := store.GetOrCreateAccount(ev.borrower);
    RecordRepayment(store, ev, market);
  }

  /** The market block of handleRepayBorrow. */
  method CountRepayer(store: Store, ev: RepayBorrowEvent) returns (market: Market)
    modifies store`markets
    ensures var m := MarketOf(old(store.Snapshot()), ev.vToken);
      market ==
        if ev.accountBorrows == 0
        then m.(borrowerCount := m.borrowerCount - 1, borrowerCountAdjusted := m.borrowerCountAdjusted - 1)
        else if ev.accountBorrows <= DUST_THRESHOLD
        then m.(borrowerCountAdjusted := m.borrowerCountAdjusted - 1)
        else m
    ensures store.markets == old(store.markets)[ev.vToken := market]
  {
    market := store.GetOrCreateMarket(ev.vToken);
    if ev.accountBorrows == 0 {
      market := market.(borrowerCount := market.borrowerCount - 1,
                        borrowerCountAdjusted := market.borrowerCountAdjusted - 1);
      store.SaveMarket(ev.vToken, market);
    } else if ev.accountBorrows <= DUST_THRESHOLD {
      // a liquidator may leave dust behind; such a position no longer counts as a borrower
      market := market.(borrowerCountAdjusted := market.borrowerCountAdjusted - 1);
      store.SaveMarket(ev.vToken, market);
    }
  }

  /** The position block of handleRepayBorrow, given the market record the handler holds. */
  method RecordRepayment(store: Store, ev: RepayBorrowEvent, market: Market)
    modifies store`positions
    ensures var k := (ev.vToken, ev.borrower);
      var p := PositionWithSymbol(old(store.Snapshot()), ev.vToken, ev.borrower, market.symbol);
      store.positions == old(store.positions)[k := p.(
        storedBorrowBalanceMantissa := ev.accountBorrows,
        accountBorrowIndexMantissa := market.borrowIndexMantissa,
        totalUnderlyingRepaidMantissa := p.totalUnderlyingRepaidMantissa + ev.repayAmount)]
  {
    var position := store.GetOrCreateAccountVToken(ev.vToken, market.symbol, ev.borrower);
    position := position.(
      storedBorrowBalanceMantissa := ev.accountBorrows,
      accountBorrowIndexMantissa := market.borrowIndexMantissa,
      totalUnderlyingRepaidMantissa := position.totalUnderlyingRepaidMantissa + ev.repayAmount);
    store.SaveAccountVToken(ev.vToken, ev.borrower, position);
  }

  // ---------------------------------------------------------------- liquidation

  /**
   * LiquidateBorrow: the liquidator's countLiquidator and the borrower's
   * countLiquidated each go up by one (on a single account when the two are
   * the same); the market is created if missing and otherwise unchanged.
   */
  function LiquidateBorrow(st: State, ev: LiquidateBorrowEvent): (r: State)
    ensures MarketsOnly(st, r, {ev.vToken}) && r.markets[ev.vToken] == MarketOf(st, ev.vToken)
    ensures AccountsOnly(st, r, {ev.liquidator, ev.borrower})
    ensures r.positions == st.positions && r.comptroller == st.comptroller
    ensures ev.liquidator != ev.borrower ==>
      && r.accounts[ev.liquidator] == AccountOf(st, ev.liquidator).(
           countLiquidator := AccountOf(st, ev.liquidator).countLiquidator + 1)
      && r.accounts[ev.borrower] == AccountOf(st, ev.borrower).(
           countLiquidated := AccountOf(st, ev.borrower).countLiquidated + 1)
    ensures ev.liquidator == ev.borrower ==>
      var a := AccountOf(st, ev.liquidator);
      r.accounts[ev.liquidator] == a.(countLiquidator := a.countLiquidator + 1,
                                      countLiquidated := a.countLiquidated + 1)
  {
    var liquidator := AccountOf(st, ev.liquidator);
    var borrower := AccountOf(st, ev.borrower);
    var accounts :=
      if ev.liquidator == ev.borrower
      then st.accounts[ev.liquidator := liquidator.(countLiquidator := liquidator.countLiquidator + 1,
                                                     countLiquidated := liquidator.countLiquidated + 1)]
      else st.accounts[ev.liquidator := liquidator.(countLiquidator := liquidator.countLiquidator + 1)]
                      [ev.borrower := borrower.(countLiquidated := borrower.countLiquidated + 1)];
    st.(markets := st.markets[ev.vToken := MarketOf(st, ev.vToken)], accounts := accounts)
  }

  method HandleLiquidateBorrow(store: Store, ev: LiquidateBorrowEvent)
    modifies store
    ensures store.Snapshot() == LiquidateBorrow(old(store.Snapshot()), ev)
  {
    var market := store.GetOrCreateMarket(ev.vToken);
    CountLiquidator(store, ev.liquidator);
    CountLiquidated(store, ev.borrower);
  }

  /** The liquidator block of handleLiquidateBorrow. */
  method CountLiquidator(store: Store, liquidator: Address)
    modifies store`accounts
    ensures var a := AccountOf(old(store.Snapshot()), liquidator);
      store.accounts == old(store.accounts)[liquidator := a.(countLiquidator := a.countLiquidator + 1)]
  {
    var account := store.GetOrCreateAccount(liquidator);
    account := account.(countLiquidator := account.countLiquidator + 1);
    store.SaveAccount(liquidator, account);
  }

  /** The borrower block of handleLiquidateBorrow. */
  method CountLiquidated(store: Store, borrower: Address)
    modifies store`accounts
    ensures var a := AccountOf(old(store.Snapshot()), borrower);
      store.accounts == old(store.accounts)[borrower := a.(countLiquidated := a.countLiquidated + 1)]
  {
    var account := store.GetOrCreateAccount(borrower);
    account := account.(countLiquidated := account.countLiquidated + 1);
    store.SaveAccount(borrower, account);
  }

  // ---------------------------------------------------------------- transfer

  /** The sender half of a Transfer: its balance drops by amount, its redeemed total grows by the underlying. */
  function Debited(p: AccountVToken, amount: int, underlying: int): AccountVToken
  {
    p.(vTokenBalanceMantissa := p.vTokenBalanceMantissa - amount,
       totalUnderlyingRedeemedMantissa := p.totalUnderlyingRedeemedMantissa + underlying)
  }

  /** The receiver half of a Transfer: its balance grows by amount, its supplied total grows by the underlying. */
  function Credited(p: AccountVToken, amount: int, underlying: int): AccountVToken
  {
    p.(vTokenBalanceMantissa := p.vTokenBalanceMantissa + amount,
       totalUnderlyingSuppliedMantissa := p.totalUnderlyingSuppliedMantissa + underlying)
  }

  /** The accounts a Transfer touches: its ends, except the market's own address. */
  function TransferParties(ev: TransferEvent): set<Address>
  {
    (if ev.from != ev.vToken then {ev.from} else {}) + (if ev.to != ev.vToken then {ev.to} else {})
  }

  /** The positions a Transfer touches: those of its parties in the market. */
  function TransferPositions(ev: TransferEvent): set<(Address, Address)>
  {
    (if ev.from != ev.vToken then {(ev.vToken, ev.from)} else {})
      + (if ev.to != ev.vToken then {(ev.vToken, ev.to)} else {})
  }

  /** The sender block of handleTransfer: the account is created if missing and the position is debited. */
  function Sent(st: State, vToken: Address, symbol: string, from: Address, amount: int, underlying: int): State
  {
    st.(accounts := st.accounts[from := AccountOf(st, from)],
        positions := st.positions[(vToken, from) :=
          Debited(PositionWithSymbol(st, vToken, from, symbol), amount, underlying)])
  }

  /** The receiver block of handleTransfer: the account is created if missing and the position is credited. */
  function Received(st: State, vToken: Address, symbol: string, to: Address, amount: int, underlying: int): State
  {
    st.(accounts := st.accounts[to := AccountOf(st, to)],
        positions := st.positions[(vToken, to) :=
          Credited(PositionWithSymbol(st, vToken, to, symbol), amount, underlying)])
  }

  /**
   * Transfer: the market is created if missing and otherwise unchanged; the
   * amount is converted to underlying at its stored exchange rate. Unless the
   * sender is the market itself, its account is created if missing and its
   * position debited; then, unless the receiver is the market itself, its
   * account is created if missing and its position credited. Nothing else
   * changes (TransferMovesBalances states the debit and credit).
   */
  function Transfer(st: State, ev: TransferEvent): (r: State)
    ensures MarketsOnly(st, r, {ev.vToken}) && r.markets[ev.vToken] == MarketOf(st, ev.vToken)
    ensures r.comptroller == st.comptroller
  {
    var v := ev.vToken;
    var m := MarketOf(st, v);
    var created := st.(markets := st.markets[v := m]);
    var u := ToUnderlying(m.exchangeRateMantissa, ev.amount);
    var sent := if ev.from != v then Sent(created, v, m.symbol, ev.from, ev.amount, u) else created;
    if ev.to != v then Received(sent, v, m.symbol, ev.to, ev.amount, u) else sent
  }

  /** Of the accounts, a Transfer only creates its parties' records where missing. */
  lemma TransferCreatesPartyAccounts(st: State, ev: TransferEvent)
    ensures var r := Transfer(st, ev);
      && AccountsOnly(st, r, TransferParties(ev))
      && (forall a :: a in TransferParties(ev) ==> r.accounts[a] == AccountOf(st, a))
  {
    if ev.from != ev.vToken {
      if ev.to != ev.vToken {
      } else {
      }
    } else {
    }
  }

  /** Of the positions, a Transfer changes only those of its parties in its market. */
  lemma TransferTouchesPartyPositions(st: State, ev: TransferEvent)
    ensures PositionsOnly(st, Transfer(st, ev), TransferPositions(ev))
  {
    if ev.from != ev.vToken {
      if ev.to != ev.vToken {
      } else {
      }
    } else {
    }
  }

  /**
   * What a Transfer does to the positions of its parties: the sender is
   * debited, the receiver credited, and one who sends to itself is debited
   * and then credited, all at the same underlying amount.
   */
  lemma TransferMovesBalances(st: State, ev: TransferEvent)
    ensures var r := Transfer(st, ev);
      var u := ToUnderlying(MarketOf(st, ev.vToken).exchangeRateMantissa, ev.amount);
      && (ev.from != ev.vToken && ev.from != ev.to ==>
            r.positions[(ev.vToken, ev.from)] == Debited(PositionOf(st, ev.vToken, ev.from), ev.amount, u))
      && (ev.to != ev.vToken && ev.from != ev.to ==>
            r.positions[(ev.vToken, ev.to)] == Credited(PositionOf(st, ev.vToken, ev.to), ev.amount, u))
      && (ev.from != ev.vToken && ev.from == ev.to ==>
            r.positions[(ev.vToken, ev.from)] ==
              Credited(Debited(PositionOf(st, ev.vToken, ev.from), ev.amount, u), ev.amount, u))
  {
  }

  /**
   * A transfer between two different accounts conserves the sum of their
   * balances, and a transfer to oneself leaves the balance as it was.
   */
  lemma TransferConservesBalances(st: State, ev: TransferEvent)
    ensures ev.from != ev.vToken && ev.to != ev.vToken && ev.from != ev.to ==>
      Balance(Transfer(st, ev), ev.vToken, ev.from) + Balance(Transfer(st, ev), ev.vToken, ev.to)
        == Balance(st, ev.vToken, ev.from) + Balance(st, ev.vToken, ev.to)
    ensures ev.from != ev.vToken && ev.from == ev.to ==>
      Balance(Transfer(st, ev), ev.vToken, ev.from) == Balance(st, ev.vToken, ev.from)
  {
    TransferMovesBalances(st, ev);
  }

  method HandleTransfer(store: Store, ev: TransferEvent)
    modifies store
    ensures store.Snapshot() == Transfer(old(store.Snapshot()), ev)
  {
    var market := store.GetOrCreateMarket(ev.vToken);

    var amountUnderlying := BigIntDiv(market.exchangeRateMantissa * ev.amount, EXP_SCALE);

    // the market's id is its vToken address; a transfer from the vToken
    // contract itself is a mint, with no sender position to debit
    if ev.from != ev.vToken {
      DebitSender(store, ev.vToken, market.symbol, ev.from, ev.amount, amountUnderlying);
    }

    // a transfer to the vToken contract itself is a redeem, with no receiver position to credit
    if ev.to != ev.vToken {
      CreditReceiver(store, ev.vToken, market.symbol, ev.to, ev.amount, amountUnderlying);
    }
  }

  /** The sender block of handleTransfer. */
  method DebitSender(store: Store, vToken: Address, symbol: string, from: Address, amount: int, underlying: int)
    modifies store`accounts, store`positions
    ensures store.Snapshot() == Sent(old(store.Snapshot()), vToken, symbol, from, amount, underlying)
  {
    var accountFrom := store.GetOrCreateAccount(from);
    var fromPosition := store.GetOrCreateAccountVToken(vToken, symbol, from);
    fromPosition := fromPosition.(
      vTokenBalanceMantissa := fromPosition.vTokenBalanceMantissa - amount,
      totalUnderlyingRedeemedMantissa := fromPosition.totalUnderlyingRedeemedMantissa + underlying);
    store.SaveAccountVToken(vToken, from, fromPosition);
  }

  /** The receiver block of handleTransfer. */
  method CreditReceiver(store: Store, vToken: Address, symbol: string, to: Address, amount: int, underlying: int)
    modifies store`accounts, store`positions
    ensures store.Snapshot() == Received(old(store.Snapshot()), vToken, symbol, to, amount, underlying)
  {
    var accountTo := store.GetOrCreateAccount(to);
    var toPosition := store.GetOrCreateAccountVToken(vToken, symbol, to);
    toPosition := toPosition.(
      vTokenBalanceMantissa := toPosition.vTokenBalanceMantissa + amount,
      totalUnderlyingSuppliedMantissa := toPosition.totalUnderlyingSuppliedMantissa + underlying);
    store.SaveAccountVToken(vToken, to, toPosition);
  }

  // ---------------------------------------------------------------- market setters

  /** NewReserveFactor overwrites the market's reserveFactor and nothing else. */
  function NewReserveFactor(st: State, ev: NewReserveFactorEvent): (r: State)
    ensures MarketsOnly(st, r, {ev.vToken})
    ensures r.markets[ev.vToken] == MarketOf(st, ev.vToken).(reserveFactor := ev.newReserveFactorMantissa)
    ensures r.accounts == st.accounts && r.positions == st.positions && r.comptroller == st.comptroller
  {
    var m := MarketOf(st, ev.vToken);
    st.(markets := st.markets[ev.vToken := m.(reserveFactor := ev.newReserveFactorMantissa)])
  }

  /** NewMarketInterestRateModel overwrites the market's interestRateModelAddress and nothing else. */
  function NewMarketInterestRateModel(st: State, ev: NewMarketInterestRateModelEvent): (r: State)
    ensures MarketsOnly(st, r, {ev.vToken})
    ensures r.markets[ev.vToken] ==
      MarketOf(st, ev.vToken).(interestRateModelAddress := ev.newInterestRateModel)
    ensures r.accounts == st.accounts && r.positions == st.positions && r.comptroller == st.comptroller
  {
    var m := MarketOf(st, ev.vToken);
    st.(markets := st.markets[ev.vToken := m.(interestRateModelAddress := ev.newInterestRateModel)])
  }

  method HandleNewReserveFactor(store: Store, ev: NewReserveFactorEvent)
    modifies store
    ensures store.Snapshot() == NewReserveFactor(old(store.Snapshot()), ev)
  {
    var market := store.GetOrCreateMarket(ev.vToken);
    market := market.(reserveFactor := ev.newReserveFactorMantissa);
    store.SaveMarket(ev.vToken, market);
  }

  method HandleNewMarketInterestRateModel(store: Store, ev: NewMarketInterestRateModelEvent)
    modifies store
    ensures store.Snapshot() == NewMarketInterestRateModel(old(store.Snapshot()), ev)
  {
    var market := store.GetOrCreateMarket(ev.vToken);
    market := market.(interestRateModelAddress := ev.newInterestRateModel);
    store.SaveMarket(ev.vToken, market);
  }
}
