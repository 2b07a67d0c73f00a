/**
 * The indexer feeds the handlers one event at a time, in chain order. This
 * module gathers the handlers' specifications under one event type, folds a
 * sequence of events over a store, and proves what holds of every store so
 * reached: no market ever counts more adjusted borrowers than borrowers.
 */
module EventReplay {
  import opened Entities
  import opened EntityStore
  import opened Events
  import V = VTokenMappings
  import C = ComptrollerMappings

  /** An event emitted by a vToken contract; a V1 event comes with the vToken's balanceOf at its block. */
  datatype VTokenEvent =
    | OnMint(mint: MintEvent)
    | OnMintBehalf(mintBehalf: MintBehalfEvent)
    | OnRedeem(redeem: RedeemEvent)
    | OnMintV1(mintV1: MintV1Event, balanceOf: Address -> int)
    | OnMintBehalfV1(mintBehalfV1: MintBehalfV1Event, balanceOf: Address -> int)
    | OnRedeemV1(redeemV1: RedeemV1Event, balanceOf: Address -> int)
    | OnBorrow(borrow: BorrowEvent)
    | OnRepayBorrow(repay: RepayBorrowEvent)
    | OnLiquidateBorrow(liquidate: LiquidateBorrowEvent)
    | OnTransfer(transfer: TransferEvent)
    | OnNewReserveFactor(reserveFactor: NewReserveFactorEvent)
    | OnNewMarketInterestRateModel(interestRateModel: NewMarketInterestRateModelEvent)

  /** An event emitted by the comptroller. */
  datatype ComptrollerEvent =
    | OnMarketEntered(entered: MarketEnteredEvent)
    | OnMarketExited(exited: MarketExitedEvent)
    | OnNewCloseFactor(closeFactor: NewCloseFactorEvent)
    | OnNewCollateralFactor(collateralFactor: NewCollateralFactorEvent)
    | OnNewLiquidationIncentive(liquidationIncentive: NewLiquidationIncentiveEvent)
    | OnNewPriceOracle(priceOracle: NewPriceOracleEvent)
    | OnXvsDistributed(xvs: XvsDistributedEvent)

  /** Any event a modelled handler receives, by the contract that emits it. */
  datatype Event = FromVToken(vTokenEvent: VTokenEvent) | FromComptroller(comptrollerEvent: ComptrollerEvent)

  /** The store after the vToken handler for `e` has run on `st`. */
  function ApplyVToken(st: State, e: VTokenEvent): State
  {
    match e
    case OnMint(ev) => V.Mint(st, ev)
    case OnMintBehalf(ev) => V.MintBehalf(st, ev)
    case OnRedeem(ev) => V.Redeem(st, ev)
    case OnMintV1(ev, balanceOf) => V.MintV1(st, ev, balanceOf)
    case OnMintBehalfV1(ev, balanceOf) => V.MintBehalfV1(st, ev, balanceOf)
    case OnRedeemV1(ev, balanceOf) => V.RedeemV1(st, ev, balanceOf)
    case OnBorrow(ev) => V.Borrow(st, ev)
    case OnRepayBorrow(ev) => V.RepayBorrow(st, ev)
    case OnLiquidateBorrow(ev) => V.LiquidateBorrow(st, ev)
    case OnTransfer(ev) => V.Transfer(st, ev)
    case OnNewReserveFactor(ev) => V.NewReserveFactor(st, ev)
    case OnNewMarketInterestRateModel(ev) => V.NewMarketInterestRateModel(st, ev)
  }

  /** The store after the comptroller handler for `e` has run on `st`. */
  function ApplyComptroller(st: State, e: ComptrollerEvent): State
  {
    match e
    case OnMarketEntered(ev) => C.MarketEntered(st, ev)
    case OnMarketExited(ev) => C.MarketExited(st, ev)
    case OnNewCloseFactor(ev) => C.NewCloseFactor(st, ev)
    case OnNewCollateralFactor(ev) => C.NewCollateralFactor(st, ev)
    case OnNewLiquidationIncentive(ev) => C.NewLiquidationIncentive(st, ev)
    case OnNewPriceOracle(ev) => C.NewPriceOracle(st, ev)
    case OnXvsDistributed(ev) => C.XvsDistributed(st, ev)
  }

  /** The store after the handler for `e` has run on `st`. */
  function Apply(st: State, e: Event): State
  {
    match e
    case FromVToken(v) => ApplyVToken(st, v)
    case FromComptroller(c) => ApplyComptroller(st, c)
  }

  /** The store after the events have been handled in order, the first one first. */
  function Replay(st: State, events: seq<Event>): State
    decreases |events|
  {
    if |events| == 0 then st else Replay(Apply(st, events[0]), events[1..])
  }

  /** In every stored market, the adjusted borrower count does not exceed the borrower count. */
  predicate CountsOrdered(st: State)
  {
    forall k :: k in st.markets ==> st.markets[k].borrowerCountAdjusted <= st.markets[k].borrowerCount
  }

  /** A market whose counts are ordered stays so when a handler keeps it, recreates it or rewrites one other field. */
  lemma MarketsOnlyKeepsOrder(st: State, r: State, id: Address)
    requires CountsOrdered(st)
    requires MarketsOnly(st, r, {id})
    requires r.markets[id].borrowerCountAdjusted <= r.markets[id].borrowerCount
    ensures CountsOrdered(r)
  {
  }

  /** Every vToken handler keeps the borrower counts ordered. */
  lemma ApplyVTokenKeepsCountsOrdered(st: State, e: VTokenEvent)
    requires CountsOrdered(st)
    ensures CountsOrdered(ApplyVToken(st, e))
  {
    match e
    case OnMint(ev) =>
      MarketsOnlyKeepsOrder(st, V.Mint(st, ev), ev.vToken);
    case OnMintBehalf(ev) =>
      MarketsOnlyKeepsOrder(st, V.MintBehalf(st, ev), ev.vToken);
    case OnRedeem(ev) =>
      MarketsOnlyKeepsOrder(st, V.Redeem(st, ev), ev.vToken);
    case OnMintV1(ev, balanceOf) =>
      MarketsOnlyKeepsOrder(st, V.MintV1(st, ev, balanceOf), ev.vToken);
    case OnMintBehalfV1(ev, balanceOf) =>
      MarketsOnlyKeepsOrder(st, V.MintBehalfV1(st, ev, balanceOf), ev.vToken);
    case OnRedeemV1(ev, balanceOf) =>
      MarketsOnlyKeepsOrder(st, V.RedeemV1(st, ev, balanceOf), ev.vToken);
    case OnBorrow(ev) =>
      MarketsOnlyKeepsOrder(st, V.Borrow(st, ev), ev.vToken);
    case OnRepayBorrow(ev) =>
      MarketsOnlyKeepsOrder(st, V.RepayBorrow(st, ev), ev.vToken);
    case OnLiquidateBorrow(ev) =>
      MarketsOnlyKeepsOrder(st, V.LiquidateBorrow(st, ev), ev.vToken);
    case OnTransfer(ev) =>
      MarketsOnlyKeepsOrder(st, V.Transfer(st, ev), ev.vToken);
    case OnNewReserveFactor(ev) =>
      MarketsOnlyKeepsOrder(st, V.NewReserveFactor(st, ev), ev.vToken);
    case OnNewMarketInterestRateModel(ev) =>
      MarketsOnlyKeepsOrder(st, V.NewMarketInterestRateModel(st, ev), ev.vToken);
  }

  /** Every comptroller handler keeps the borrower counts ordered. */
  lemma ApplyComptrollerKeepsCountsOrdered(st: State, e: ComptrollerEvent)
    requires CountsOrdered(st)
    ensures CountsOrdered(ApplyComptroller(st, e))
  {
    match e
    case OnMarketEntered(_) =>
    case OnMarketExited(_) =>
    case OnNewCloseFactor(_) =>
    case OnNewCollateralFactor(ev) =>
      if ev.vToken in st.markets {
        MarketsOnlyKeepsOrder(st, C.NewCollateralFactor(st, ev), ev.vToken);
      }
    case OnNewLiquidationIncentive(_) =>
    case OnNewPriceOracle(_) =>
    case OnXvsDistributed(ev) =>
      MarketsOnlyKeepsOrder(st, C.XvsDistributed(st, ev), ev.vToken);
  }

  /** Every handler keeps the borrower counts ordered. */
  lemma ApplyKeepsCountsOrdered(st: State, e: Event)
    requires CountsOrdered(st)
    ensures CountsOrdered(Apply(st, e))
  {
    match e
    case FromVToken(v) => ApplyVTokenKeepsCountsOrdered(st, v);
    case FromComptroller(c) => ApplyComptrollerKeepsCountsOrdered(st, c);
  }

  /**
   * Starting from a store whose counts are ordered (the empty store among
   * them), any sequence of events leaves them ordered.
   */
  lemma {:induction false} ReplayKeepsCountsOrdered(st: State, events: seq<Event>)
    requires CountsOrdered(st)
    ensures CountsOrdered(Replay(st, events))
    decreases |events|
  {
    if |events| > 0 {
      ApplyKeepsCountsOrdered(st, events[0]);
      ReplayKeepsCountsOrdered(Apply(st, events[0]), events[1..]);
    }
  }

  /** The indexer starts from an empty store, in which the counts are trivially ordered. */
  lemma FromEmptyCountsOrdered(events: seq<Event>)
    ensures CountsOrdered(Replay(Empty, events))
  {
    ReplayKeepsCountsOrdered(Empty, events);
  }
}
