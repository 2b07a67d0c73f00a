/**
 * The comptroller event handlers (mappings/comptroller.ts), in the same form
 * as the vToken handlers: an imperative method on the Store, proved to leave
 * it in the state a pure function of the old state gives.
 */
module ComptrollerMappings {
  import opened Entities
  import opened EntityStore
  import opened Events

  // ---------------------------------------------------------------- entered / exited

  /**
   * MarketEntered and MarketExited: for a market that is not in the store the
   * handler returns and nothing changes. Otherwise the account is created if
   * missing (and otherwise untouched), and the account's position in the
   * market, created if missing, gets enteredMarket set to `flag`; nothing
   * else changes.
   */
  function MarketMembership(st: State, vToken: Address, account: Address, flag: bool): (r: State)
    ensures vToken !in st.markets ==> r == st
    ensures vToken in st.markets ==>
      && r.markets == st.markets && r.comptroller == st.comptroller
      && AccountsOnly(st, r, {account}) && r.accounts[account] == AccountOf(st, account)
      && PositionsOnly(st, r, {(vToken, account)})
      && r.positions[(vToken, account)] == PositionOf(st, vToken, account).(enteredMarket := flag)
  {
    if vToken !in st.markets then st
    else
      st.(accounts := st.accounts[account := AccountOf(st, account)],
          positions := st.positions[(vToken, account) := PositionOf(st, vToken, account).(enteredMarket := flag)])
  }

  function MarketEntered(st: State, ev: MarketEnteredEvent): State
  {
    MarketMembership(st, ev.vToken, ev.account, true)
  }

  function MarketExited(st: State, ev: MarketExitedEvent): State
  {
    MarketMembership(st, ev.vToken, ev.account, false)
  }

  /** Whether the store records `account` as having entered the market `vToken`. */
  function Entered(st: State, vToken: Address, account: Address): bool
  {
    PositionOf(st, vToken, account).enteredMarket
  }

  /** Entering a market twice leaves the store as entering it once; likewise exiting. */
  lemma MembershipIdempotent(st: State, vToken: Address, account: Address, flag: bool)
    ensures MarketMembership(MarketMembership(st, vToken, account, flag), vToken, account, flag)
         == MarketMembership(st, vToken, account, flag)
  {
    if vToken in st.markets {
      var once := MarketMembership(st, vToken, account, flag);
      assert once.accounts[account := AccountOf(once, account)] == once.accounts;
      assert once.positions[(vToken, account) := PositionOf(once, vToken, account).(enteredMarket := flag)]
          == once.positions;
    }
  }

  /**
   * Of two Entered/Exited events for the same account and market, the later
   * decides the flag; and the earlier one leaves nothing else behind that the
   * later would not also leave.
   */
  lemma LaterMembershipWins(st: State, vToken: Address, account: Address, first: bool, second: bool)
    ensures var r := MarketMembership(MarketMembership(st, vToken, account, first), vToken, account, second);
      && r == MarketMembership(st, vToken, account, second)
      && (vToken in st.markets ==> Entered(r, vToken, account) == second)
      && (vToken !in st.markets ==> r == st)
  {
    if vToken in st.markets {
      var once := MarketMembership(st, vToken, account, first);
      var twice := MarketMembership(once, vToken, account, second);
      var direct := MarketMembership(st, vToken, account, second);
      assert twice.accounts == direct.accounts;
      assert twice.positions == direct.positions;
    }
  }

  method HandleMarketEntered(store: Store, ev: MarketEnteredEvent)
    modifies store
    ensures store.Snapshot() == MarketEntered(old(store.Snapshot()), ev)
  {
    var market := store.LoadMarket(ev.vToken);
    if market.None? {
      // the handler loads once more before giving up
      market := store.LoadMarket(ev.vToken);
    }
    if market.None? {
      return;
    }
    EnsureAccount(store, ev.account);
    SetEnteredMarket(store, ev.vToken, market.value, ev.account, true);
  }

  method HandleMarketExited(store: Store, ev: MarketExitedEvent)
    modifies store
    ensures store.Snapshot() == MarketExited(old(store.Snapshot()), ev)
  {
    var market := store.LoadMarket(ev.vToken);
    if market.None? {
      market := store.LoadMarket(ev.vToken);
    }
    if market.None? {
      return;
    }
    EnsureAccount(store, ev.account);
    SetEnteredMarket(store, ev.vToken, market.value, ev.account, false);
  }

  /** The account block of the Entered/Exited handlers: createAccount when Account.load finds nothing. */
  method EnsureAccount(store: Store, account: Address)
    modifies store`accounts
    ensures store.accounts == old(store.accounts)[account := AccountOf(old(store.Snapshot()), account)]
  {
    var loaded := store.LoadAccount(account);
    if loaded.None? {
      store.CreateAccount(account);
    }
  }

  /**
   * The position block of the Entered/Exited handlers: updateCommonVTokenStats
   * yields the position (created if missing), whose flag is then set and saved.
   */
  method SetEnteredMarket(store: Store, vToken: Address, market: Market, account: Address, flag: bool)
    modifies store`positions
    ensures var k := (vToken, account);
      var p := PositionWithSymbol(old(store.Snapshot()), vToken, account, market.symbol);
      store.positions == old(store.positions)[k := p.(enteredMarket := flag)]
  {
    var vTokenStats := store.GetOrCreateAccountVToken(vToken, market.symbol, account);
    vTokenStats := vTokenStats.(enteredMarket := flag);
    store.SaveAccountVToken(vToken, account, vTokenStats);
  }

  // ---------------------------------------------------------------- comptroller setters

  /** NewCloseFactor: the comptroller, created if missing, gets the new close factor and nothing else changes. */
  function NewCloseFactor(st: State, ev: NewCloseFactorEvent): (r: State)
    ensures r.comptroller.Some?
    ensures ComptrollerOf(r) == ComptrollerOf(st).(closeFactor := ev.newCloseFactorMantissa)
    ensures r.markets == st.markets && r.accounts == st.accounts && r.positions == st.positions
  {
    st.(comptroller := Some(ComptrollerOf(st).(closeFactor := ev.newCloseFactorMantissa)))
  }

  /** NewLiquidationIncentive: likewise for the liquidation incentive. */
  function NewLiquidationIncentive(st: State, ev: NewLiquidationIncentiveEvent): (r: State)
    ensures r.comptroller.Some?
    ensures ComptrollerOf(r) ==
      ComptrollerOf(st).(liquidationIncentive := ev.newLiquidationIncentiveMantissa)
    ensures r.markets == st.markets && r.accounts == st.accounts && r.positions == st.positions
  {
    st.(comptroller := Some(ComptrollerOf(st).(liquidationIncentive := ev.newLiquidationIncentiveMantissa)))
  }

  /** NewPriceOracle: likewise for the price oracle address. */
  function NewPriceOracle(st: State, ev: NewPriceOracleEvent): (r: State)
    ensures r.comptroller.Some?
    ensures ComptrollerOf(r) == ComptrollerOf(st).(priceOracle := ev.newPriceOracle)
    ensures r.markets == st.markets && r.accounts == st.accounts && r.positions == st.positions
  {
    st.(comptroller := Some(ComptrollerOf(st).(priceOracle := ev.newPriceOracle)))
  }

  /** Of two updates of the same comptroller setting the later wins, and the earlier leaves nothing behind. */
  lemma ComptrollerSettersLastWins(st: State, c1: NewCloseFactorEvent, c2: NewCloseFactorEvent,
                                   l1: NewLiquidationIncentiveEvent, l2: NewLiquidationIncentiveEvent,
                                   p1: NewPriceOracleEvent, p2: NewPriceOracleEvent)
    ensures NewCloseFactor(NewCloseFactor(st, c1), c2) == NewCloseFactor(st, c2)
    ensures NewLiquidationIncentive(NewLiquidationIncentive(st, l1), l2) == NewLiquidationIncentive(st, l2)
    ensures NewPriceOracle(NewPriceOracle(st, p1), p2) == NewPriceOracle(st, p2)
  {
  }

  /** The three comptroller settings are independent: setting one never disturbs another. */
  lemma ComptrollerSettersIndependent(st: State, c: NewCloseFactorEvent, l: NewLiquidationIncentiveEvent,
                                      p: NewPriceOracleEvent)
    ensures ComptrollerOf(NewCloseFactor(st, c)).liquidationIncentive == ComptrollerOf(st).liquidationIncentive
    ensures ComptrollerOf(NewCloseFactor(st, c)).priceOracle == ComptrollerOf(st).priceOracle
    ensures ComptrollerOf(NewLiquidationIncentive(st, l)).closeFactor == ComptrollerOf(st).closeFactor
    ensures ComptrollerOf(NewLiquidationIncentive(st, l)).priceOracle == ComptrollerOf(st).priceOracle
    ensures ComptrollerOf(NewPriceOracle(st, p)).closeFactor == ComptrollerOf(st).closeFactor
    ensures ComptrollerOf(NewPriceOracle(st, p)).liquidationIncentive == ComptrollerOf(st).liquidationIncentive
  {
  }

  method HandleNewCloseFactor(store: Store, ev: NewCloseFactorEvent)
    modifies store
    ensures store.Snapshot() == NewCloseFactor(old(store.Snapshot()), ev)
  {
    var comptroller := store.GetOrCreateComptroller();
    comptroller := comptroller.(closeFactor := ev.newCloseFactorMantissa);
    store.SaveComptroller(comptroller);
  }

  method HandleNewLiquidationIncentive(store: Store, ev: NewLiquidationIncentiveEvent)
    modifies store
    ensures store.Snapshot() == NewLiquidationIncentive(old(store.Snapshot()), ev)
  {
    var comptroller := store.GetOrCreateComptroller();
    comptroller := comptroller.(liquidationIncentive := ev.newLiquidationIncentiveMantissa);
    store.SaveComptroller(comptroller);
  }

  method HandleNewPriceOracle(store: Store, ev: NewPriceOracleEvent)
    modifies store
    ensures store.Snapshot() == NewPriceOracle(old(store.Snapshot()), ev)
  {
    var comptroller := store.GetOrCreateComptroller();
    comptroller := comptroller.(priceOracle := ev.newPriceOracle);
    store.SaveComptroller(comptroller);
  }

  // ---------------------------------------------------------------- market updates

  /**
   * NewCollateralFactor: a stored market gets the new collateral factor and
   * nothing else changes; for a market not in the store nothing changes.
   */
  function NewCollateralFactor(st: State, ev: NewCollateralFactorEvent): (r: State)
    ensures ev.vToken !in st.markets ==> r == st
    ensures ev.vToken in st.markets ==>
      && MarketsOnly(st, r, {ev.vToken})
      && r.markets[ev.vToken] == st.markets[ev.vToken].(collateralFactorMantissa := ev.newCollateralFactorMantissa)
    ensures r.accounts == st.accounts && r.positions == st.positions && r.comptroller == st.comptroller
  {
    if ev.vToken in st.markets
    then st.(markets := st.markets[ev.vToken :=
               st.markets[ev.vToken].(collateralFactorMantissa := ev.newCollateralFactorMantissa)])
    else st
  }

  /** Of two collateral-factor updates to one market the later wins. */
  lemma CollateralFactorLastWins(st: State, e1: NewCollateralFactorEvent, e2: NewCollateralFactorEvent)
    requires e1.vToken == e2.vToken
    ensures NewCollateralFactor(NewCollateralFactor(st, e1), e2) == NewCollateralFactor(st, e2)
  {
    if e1.vToken in st.markets {
      var once := NewCollateralFactor(st, e1);
      assert NewCollateralFactor(once, e2).markets == NewCollateralFactor(st, e2).markets;
    }
  }

  method HandleNewCollateralFactor(store: Store, ev: NewCollateralFactorEvent)
    modifies store
    ensures store.Snapshot() == NewCollateralFactor(old(store.Snapshot()), ev)
  {
    var market := store.LoadMarket(ev.vToken);
    if market.Some? {
      var updated := market.value.(collateralFactorMantissa := ev.newCollateralFactorMantissa);
      store.SaveMarket(ev.vToken, updated);
    }
  }

  /**
   * XvsDistributed (DistributedSupplierVenus and DistributedBorrowerVenus):
   * the market is created if missing. The handler adds venusDelta to its
   * local copy of the market but never saves it, so the store keeps the
   * market as it was: the only change is the creation.
   */
  function XvsDistributed(st: State, ev: XvsDistributedEvent): (r: State)
    ensures MarketsOnly(st, r, {ev.vToken}) && r.markets[ev.vToken] == MarketOf(st, ev.vToken)
    ensures r.accounts == st.accounts && r.positions == st.positions && r.comptroller == st.comptroller
  {
    st.(markets := st.markets[ev.vToken := MarketOf(st, ev.vToken)])
  }

  /** Whatever venusDelta an XvsDistributed event carries, the stored XVS total does not move. */
  lemma XvsDistributedKeepsTotal(st: State, ev: XvsDistributedEvent)
    ensures MarketOf(XvsDistributed(st, ev), ev.vToken).totalXvsDistributedMantissa
         == MarketOf(st, ev.vToken).totalXvsDistributedMantissa
    ensures XvsDistributed(XvsDistributed(st, ev), ev) == XvsDistributed(st, ev)
  {
    var once := XvsDistributed(st, ev);
    assert once.markets[ev.vToken := MarketOf(once, ev.vToken)] == once.markets;
  }

  method HandleXvsDistributed(store: Store, ev: XvsDistributedEvent)
    modifies store
    ensures store.Snapshot() == XvsDistributed(old(store.Snapshot()), ev)
  {
    var loaded := store.LoadMarket(ev.vToken);
    var market: Market;
    if loaded.None? {
      market := store.CreateMarket(ev.vToken);
    } else {
      market := loaded.value;
    }
    // the handler stops here: the increased total is never saved
    market := market.(totalXvsDistributedMantissa := market.totalXvsDistributedMantissa + ev.venusDelta);
  }
}
