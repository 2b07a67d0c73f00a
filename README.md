# Venus subgraph bookkeeping, modelled in Dafny

This project models how the Venus Protocol subgraph turns on-chain events into
stored entities. The vToken handlers (`subgraphs/venus/src/mappings/vToken.ts`)
and the comptroller handlers (`subgraphs/venus/src/mappings/comptroller.ts`)
load Market, Account, AccountVToken and Comptroller records, change a few
fields, and save them. The governance accessors
(`subgraphs/venus-governance/src/operations/get.ts`) look up the Governance,
Proposal and Delegate records.

Modules:

- `Entities` (entities.dfy): the record types and the values a freshly
  created record holds. Also `DUST_THRESHOLD` (10) and `EXP_SCALE` (10^18).
- `EntityStore` (store.dfy): the store.
  - `State` is the store as a value: markets keyed by vToken address,
    accounts by address, positions (AccountVToken) by the (market, account)
    pair, and an optional singleton Comptroller.
  - `Store` is a class whose map fields the handlers update in place.
  - Its methods model the host's `load`/`save` and the
    `getOrCreateMarket`, `getOrCreateAccount`, `getOrCreateAccountVToken`,
    `createAccount` and `getOrCreateComptroller` helpers. These are used by
    the handlers, but operations/getOrCreate.ts and operations/create.ts,
    which define them, are not part of this model.
  - The frame predicates `MarketsOnly`, `AccountsOnly` and `PositionsOnly`
    say which records a step may create or change.
- `Events` (events.dfy): the event parameters each handler reads.
- `VTokenMappings` (vtoken.dfy): the vToken handlers.
  - Each `HandleX` is an imperative method on a `Store`.
  - Each is proved to leave the store in the state that the pure function
    `X` gives for the old state.
  - Handlers touching several tables are split into one helper method per
    block of the source (market block, account block, position block).
  - The properties the source promises are stated on the functions and in
    lemmas.
- `ComptrollerMappings` (comptroller.dfy): the comptroller handlers, in the
  same form.
- `GovernanceGet` (governance.dfy): the three governance accessors, as
  methods on a `GovernanceStore` class.
- `EventReplay` (replay.dfy): all handler specifications under one event
  type, and a left fold of an event sequence over the store (the indexer
  handles events one at a time, in chain order). It proves that no market
  ever counts more adjusted borrowers than borrowers.
- `Scenarios` (scenarios.dfy): the event sequences of the vToken handler
  tests, with the counts and amounts those tests expect.

Division: graph-ts `BigInt.div` truncates toward zero, and Dafny's `/` is
Euclidean, so the model uses `BigIntDiv`. The two agree for the non-negative
operands a transfer supplies.

`DUST_THRESHOLD` is imported at `vToken.ts:23` from a constants file that is
not part of this model. Its value, 10, is the one the handler tests imply: a
debt of 10 counts as dust and a debt of 11 does not.

Behaviours of the source that the model keeps as written:

- `handleXvsDistributed` adds `venusDelta` to its local copy of the market
  but never saves it. The only lasting effect is creating the market
  (`XvsDistributedKeepsTotal`).
- `handleRepayBorrow` lowers `borrowerCountAdjusted` on every repay that
  leaves dust, and again when the debt reaches zero. So one borrower can take
  it below zero (`DustThenFullRepaySequence`).
  - The order `borrowerCountAdjusted <= borrowerCount` still holds in every
    store reachable from the empty one (`ReplayKeepsCountsOrdered`).

## Model

| member | source | states |
|---|---|---|
| VTokenMappings.BigIntDiv | subgraphs/venus/src/mappings/vToken.ts:217-219 | the quotient is truncated toward zero: for a non-negative dividend it is the floor; for a negative one it lies within one divisor above it |
| VTokenMappings.ToUnderlying | subgraphs/venus/src/mappings/vToken.ts:217-219 | for a non-negative product rate*amount, the underlying u satisfies u*10^18 <= rate*amount < (u+1)*10^18 |
| VTokenMappings.ToUnderlyingSplit | subgraphs/venus/src/mappings/vToken.ts:217-219 | at a non-negative rate, two transfers of a and b vTokens record at most one unit of underlying less than one transfer of a+b, and never more |
| VTokenMappings.ToUnderlyingExample | subgraphs/venus/tests/VToken/index.test.ts:336-379 | 146205398726345 vTokens at rate 365045823500000000000000 convert to 53371670178204461670 underlying, as the transfer test expects |
| VTokenMappings.Minted | subgraphs/venus/src/mappings/vToken.ts:53-69 | a mint creates the market if missing and raises supplierCount by one exactly when the minted vTokens are the receiver's whole balance; only that market changes |
| VTokenMappings.Redeemed | subgraphs/venus/src/mappings/vToken.ts:82-90 | a redeem creates the market if missing and lowers supplierCount by one exactly when the redeemer's balance is zero; only that market changes |
| VTokenMappings.MintThenRedeemAllRestoresSupplierCount | subgraphs/venus/src/mappings/vToken.ts:53-90 | a first mint followed by redeeming everything leaves the supplier count where it was |
| VTokenMappings.SupplyMovesCountByAtMostOne | subgraphs/venus/src/mappings/vToken.ts:53-90 | a supply event moves its market's supplier count by at most one, in the right direction, and leaves every other market as it was |
| VTokenMappings.HandleMint | subgraphs/venus/src/mappings/vToken.ts:53-60 | the new store is Mint of the old one |
| VTokenMappings.HandleMintBehalf | subgraphs/venus/src/mappings/vToken.ts:62-69 | the new store is MintBehalf of the old one |
| VTokenMappings.HandleRedeem | subgraphs/venus/src/mappings/vToken.ts:82-90 | the new store is Redeem of the old one |
| VTokenMappings.HandleMintV1 | subgraphs/venus/src/mappings/vToken.ts:284-291 | the new store is MintV1 of the old one, with the minter's balance taken from balanceOf |
| VTokenMappings.HandleMintBehalfV1 | subgraphs/venus/src/mappings/vToken.ts:293-300 | the new store is MintBehalfV1 of the old one, with the receiver's balance taken from balanceOf |
| VTokenMappings.HandleRedeemV1 | subgraphs/venus/src/mappings/vToken.ts:302-310 | the new store is RedeemV1 of the old one, with the redeemer's balance taken from balanceOf |
| VTokenMappings.Borrow | subgraphs/venus/src/mappings/vToken.ts:100-122 | both borrower counts rise by one exactly when the whole debt is this borrow; the borrower is marked hasBorrowed; the position stores the debt and the market's borrow index and accumulates the amount borrowed; nothing else changes |
| VTokenMappings.RepayBorrow | subgraphs/venus/src/mappings/vToken.ts:137-162 | a zero debt lowers both counts; a non-zero debt of at most DUST_THRESHOLD lowers only the adjusted count; otherwise the counts stay; the account is only created; the position stores the debt and index and accumulates the repaid amount; nothing else changes |
| VTokenMappings.BorrowThenRepayAllRestoresCounts | subgraphs/venus/src/mappings/vToken.ts:100-148 | a new borrower who then repays in full leaves both borrower counts where they were |
| VTokenMappings.MarketSettersLastWins | subgraphs/venus/src/mappings/vToken.ts:267-277 | of two reserve-factor (or interest-rate-model) updates to one market, the later alone decides the store |
| VTokenMappings.HandleBorrow | subgraphs/venus/src/mappings/vToken.ts:100-122 | the new store is Borrow of the old one |
| VTokenMappings.CountBorrower | subgraphs/venus/src/mappings/vToken.ts:101-107 | the market, created if missing, gets both counts raised for a new borrower, and only the markets table changes |
| VTokenMappings.MarkBorrowed | subgraphs/venus/src/mappings/vToken.ts:109-111 | the borrower's account, created if missing, is marked hasBorrowed, and only the accounts table changes |
| VTokenMappings.RecordBorrow | subgraphs/venus/src/mappings/vToken.ts:113-118 | the position, created with the market's symbol if missing, stores the debt and index and accumulates the borrow, and only the positions table changes |
| VTokenMappings.HandleRepayBorrow | subgraphs/venus/src/mappings/vToken.ts:137-162 | the new store is RepayBorrow of the old one |
| VTokenMappings.CountRepayer | subgraphs/venus/src/mappings/vToken.ts:138-148 | the market block applies the zero / dust / otherwise rule, and only the markets table changes |
| VTokenMappings.RecordRepayment | subgraphs/venus/src/mappings/vToken.ts:152-158 | the position stores the debt and index and accumulates the repayment, and only the positions table changes |
| VTokenMappings.LiquidateBorrow | subgraphs/venus/src/mappings/vToken.ts:179-195 | the liquidator's countLiquidator and the borrower's countLiquidated each rise by one (both on one record when they are the same account); the market is only created; positions and comptroller are untouched |
| VTokenMappings.HandleLiquidateBorrow | subgraphs/venus/src/mappings/vToken.ts:179-195 | the new store is LiquidateBorrow of the old one |
| VTokenMappings.CountLiquidator | subgraphs/venus/src/mappings/vToken.ts:182-184 | the liquidator's account, created if missing, has countLiquidator raised by one, and only the accounts table changes |
| VTokenMappings.CountLiquidated | subgraphs/venus/src/mappings/vToken.ts:186-188 | the borrower's account, created if missing, has countLiquidated raised by one, and only the accounts table changes |
| VTokenMappings.Transfer | subgraphs/venus/src/mappings/vToken.ts:212-260 | the market is created if missing and otherwise unchanged; the comptroller is untouched |
| VTokenMappings.TransferCreatesPartyAccounts | subgraphs/venus/src/mappings/vToken.ts:224-258 | a transfer only creates the accounts of its ends other than the market itself, and changes no account |
| VTokenMappings.TransferTouchesPartyPositions | subgraphs/venus/src/mappings/vToken.ts:224-258 | a transfer creates or changes only the positions of its ends other than the market itself, in its market |
| VTokenMappings.TransferMovesBalances | subgraphs/venus/src/mappings/vToken.ts:224-258 | the sender's position loses the amount and adds the underlying to its redeemed total; the receiver's gains the amount and adds the underlying to its supplied total; a self-transfer does both |
| VTokenMappings.TransferConservesBalances | subgraphs/venus/src/mappings/vToken.ts:224-258 | a transfer between two accounts keeps the sum of their balances; a self-transfer keeps the balance |
| VTokenMappings.HandleTransfer | subgraphs/venus/src/mappings/vToken.ts:212-260 | the new store is Transfer of the old one |
| VTokenMappings.DebitSender | subgraphs/venus/src/mappings/vToken.ts:224-240 | the sender block gives the state Sent describes: account created if missing, position debited |
| VTokenMappings.CreditReceiver | subgraphs/venus/src/mappings/vToken.ts:247-258 | the receiver block gives the state Received describes: account created if missing, position credited |
| VTokenMappings.NewReserveFactor | subgraphs/venus/src/mappings/vToken.ts:267-271 | the market, created if missing, gets the new reserve factor; nothing else changes |
| VTokenMappings.NewMarketInterestRateModel | subgraphs/venus/src/mappings/vToken.ts:273-277 | the market, created if missing, gets the new interest rate model address; nothing else changes |
| VTokenMappings.HandleNewReserveFactor | subgraphs/venus/src/mappings/vToken.ts:267-271 | the new store is NewReserveFactor of the old one |
| VTokenMappings.HandleNewMarketInterestRateModel | subgraphs/venus/src/mappings/vToken.ts:273-277 | the new store is NewMarketInterestRateModel of the old one |
| ComptrollerMappings.MarketMembership | subgraphs/venus/src/mappings/comptroller.ts:29-95 | for an unknown market nothing changes; otherwise the account is only created, the position (created if missing) gets enteredMarket set to the flag, and nothing else changes |
| ComptrollerMappings.MembershipIdempotent | subgraphs/venus/src/mappings/comptroller.ts:29-95 | entering (or exiting) twice leaves the store as doing it once |
| ComptrollerMappings.LaterMembershipWins | subgraphs/venus/src/mappings/comptroller.ts:29-95 | of two Entered/Exited events for one account and market, the later alone decides the store and the flag |
| ComptrollerMappings.HandleMarketEntered | subgraphs/venus/src/mappings/comptroller.ts:29-61 | the new store is MarketEntered of the old one (including the early return for an unknown market) |
| ComptrollerMappings.HandleMarketExited | subgraphs/venus/src/mappings/comptroller.ts:63-95 | the new store is MarketExited of the old one |
| ComptrollerMappings.EnsureAccount | subgraphs/venus/src/mappings/comptroller.ts:44-48 | the account is created when missing and otherwise unchanged; only the accounts table changes |
| ComptrollerMappings.SetEnteredMarket | subgraphs/venus/src/mappings/comptroller.ts:50-60 | the position, created with the market's symbol if missing, gets the flag; only the positions table changes |
| ComptrollerMappings.NewCloseFactor | subgraphs/venus/src/mappings/comptroller.ts:97-101 | the comptroller, created if missing, gets the new close factor; no other table changes |
| ComptrollerMappings.NewLiquidationIncentive | subgraphs/venus/src/mappings/comptroller.ts:115-119 | the comptroller, created if missing, gets the new liquidation incentive; no other table changes |
| ComptrollerMappings.NewPriceOracle | subgraphs/venus/src/mappings/comptroller.ts:121-125 | the comptroller, created if missing, gets the new price oracle; no other table changes |
| ComptrollerMappings.ComptrollerSettersLastWins | subgraphs/venus/src/mappings/comptroller.ts:97-125 | of two updates of one comptroller setting, the later alone decides the store |
| ComptrollerMappings.ComptrollerSettersIndependent | subgraphs/venus/src/mappings/comptroller.ts:97-125 | setting one of close factor, liquidation incentive and price oracle leaves the other two as they were |
| ComptrollerMappings.HandleNewCloseFactor | subgraphs/venus/src/mappings/comptroller.ts:97-101 | the new store is NewCloseFactor of the old one |
| ComptrollerMappings.HandleNewLiquidationIncentive | subgraphs/venus/src/mappings/comptroller.ts:115-119 | the new store is NewLiquidationIncentive of the old one |
| ComptrollerMappings.HandleNewPriceOracle | subgraphs/venus/src/mappings/comptroller.ts:121-125 | the new store is NewPriceOracle of the old one |
| ComptrollerMappings.NewCollateralFactor | subgraphs/venus/src/mappings/comptroller.ts:103-112 | a stored market gets the new collateral factor; for an unknown market nothing changes |
| ComptrollerMappings.CollateralFactorLastWins | subgraphs/venus/src/mappings/comptroller.ts:103-112 | of two collateral-factor updates to one market, the later alone decides the store |
| ComptrollerMappings.HandleNewCollateralFactor | subgraphs/venus/src/mappings/comptroller.ts:103-112 | the new store is NewCollateralFactor of the old one |
| ComptrollerMappings.XvsDistributed | subgraphs/venus/src/mappings/comptroller.ts:128-136 | the market is created if missing and otherwise unchanged; nothing else changes |
| ComptrollerMappings.XvsDistributedKeepsTotal | subgraphs/venus/src/mappings/comptroller.ts:128-136 | whatever venusDelta the event carries, the stored XVS total stays, and handling the event again changes nothing |
| ComptrollerMappings.HandleXvsDistributed | subgraphs/venus/src/mappings/comptroller.ts:128-136 | the new store is XvsDistributed of the old one: the increased total is never saved |
| EventReplay.ApplyVTokenKeepsCountsOrdered | subgraphs/venus/src/mappings/vToken.ts:100-148 | no vToken handler can make a market's adjusted borrower count exceed its borrower count |
| EventReplay.ApplyComptrollerKeepsCountsOrdered | subgraphs/venus/src/mappings/comptroller.ts:29-136 | no comptroller handler can make a market's adjusted borrower count exceed its borrower count |
| EventReplay.ApplyKeepsCountsOrdered | subgraphs/venus/src/mappings/vToken.ts:100-148 | no handler can break that order |
| EventReplay.ReplayKeepsCountsOrdered | subgraphs/venus/src/mappings/vToken.ts:100-148 | from an ordered store, any sequence of events leaves every market's adjusted count at most its borrower count |
| EventReplay.FromEmptyCountsOrdered | subgraphs/venus/src/mappings/vToken.ts:100-148 | every store the modelled handlers reach from the empty store keeps that order (market listing and interest accrual are outside the modelled handlers; a listed market starts with both counts 0) |
| Scenarios.SupplierCountSequence | subgraphs/venus/tests/VToken/index.test.ts:443-543 | the supplier count goes 0, 1, 2, 3, 4, 3, 3, 2 over the test's mints and redeems |
| Scenarios.BorrowerCountSequence | subgraphs/venus/tests/VToken/index.test.ts:545-620 | the pair (borrowerCount, borrowerCountAdjusted) goes (0,0), (1,1), (2,2), (1,1), (1,1), (1,0) over the test's borrows and repays |
| Scenarios.DustThenFullRepaySequence | subgraphs/venus/src/mappings/vToken.ts:137-148 | one borrower repaying to dust and then in full takes the adjusted count from 1 through 0 to -1 |
| Scenarios.TransferScenario | subgraphs/venus/tests/VToken/index.test.ts:336-379 | run through HandleTransfer on a store, the test's transfer records 53371670178204461670 underlying redeemed and leaves the borrow index 0 |
| GovernanceGet.GovernanceStore.GetGovernanceEntity | subgraphs/venus-governance/src/operations/get.ts:10-25 | yields the stored Governance record when there is one, otherwise one with id GOVERNANCE and every counter zero; it saves nothing |
| GovernanceGet.GovernanceStore.GetGovernanceEntityTwice | subgraphs/venus-governance/src/operations/get.ts:10-25 | two calls in a row yield the same record, the fresh one when none is stored |
| GovernanceGet.GovernanceStore.GetProposal | subgraphs/venus-governance/src/operations/get.ts:27-33 | found exactly when the id is stored, and then the stored proposal with that id; otherwise aborted with "Proposal <id> not found" |
| GovernanceGet.GovernanceStore.GetDelegate | subgraphs/venus-governance/src/operations/get.ts:35-41 | found exactly when the id is stored, and then the stored delegate with that id; otherwise aborted with "Delegate <id> not found" |

## Left out

- handleMarketListed and handleAccrueInterest: the first calls createMarket and starts indexing the vToken; the second only runs getOrCreateMarket's accrual refresh. Both depend on contract reads, which this model does not have.
- createMarket's contract reads (name, symbol, underlying address and decimals, initial exchange rate and reserve factor): a created market holds the defaults. operations/create.ts is not part of this model.
- EntityStore.Store.GetOrCreateMarket: getOrCreateMarket(address, event) also refreshes a stored market whose accrual block is older than the event's block. It re-reads the exchange rate, borrow index, cash, reserves, totals, rates, accrual block and timestamp from the vToken contract (see vToken.ts:213-214 and handleAccrueInterest at vToken.ts:262-265). That refresh runs on the host and is not part of this model. Here getOrCreateMarket returns the stored market unchanged.
- The stored exchange rate and borrow index are therefore taken as given. Every handler specification holds for any `State`, whatever values it stores. Without the refresh no modelled handler writes these two fields, so a store replayed from `Empty` keeps them at 0. The chain supplies the real values.
- VTokenMappings.Minted: "the market is otherwise unchanged" holds because the accrual refresh is left out. In the source, the refresh may rewrite the market's rates and indexes in the same call.
- VTokenMappings.Redeemed: the market is unchanged apart from the count because the accrual refresh is left out.
- VTokenMappings.Borrow: the market is unchanged apart from the counts because the accrual refresh is left out. The borrow index stored on the position is the stored market's, not a freshly refreshed one.
- VTokenMappings.RepayBorrow: the same holds as for Borrow, for the counts and the borrow index.
- VTokenMappings.LiquidateBorrow: the market is only created because the accrual refresh is left out.
- VTokenMappings.Transfer: the market is only created because the accrual refresh is left out. The underlying amount uses the stored exchange rate, not a refreshed one.
- VTokenMappings.NewReserveFactor: only the reserve factor changes because the accrual refresh is left out.
- VTokenMappings.NewMarketInterestRateModel: only the interest rate model changes because the accrual refresh is left out.
- EntityStore.Store.GetOrCreateAccountVToken: a new position starts with a zero vToken balance and a zero stored borrow balance. In the source, creating a position also reads the account's snapshot from the vToken contract (getAccountSnapshot). The handler tests mock that call for exactly the handlers that create a position (index.test.ts:160-171, 217-228, 345-356, 395-406), which shows the source seeds the new position's balance and borrow balance from the chain. That read is not part of this model. `Balance`, `TransferMovesBalances` and `TransferConservesBalances` are relative to the zero default: for a first transfer to a new receiver, the source starts that receiver's balance at its snapshot value.
- Record fields that the modelled handlers neither read nor write are left out of the records. These are the market's cash, reserves, totals, rates, prices and timestamps.
- The accrual block number and timestamp that updateCommonVTokenStats writes on a position are left out, as are those the refresh writes on a market.
- The Market, Account, AccountVToken and Comptroller records carry no id field. The map key is the id. The governance records do carry their id, and GovernanceStore.Valid ties it to the key.
- The createXEvent helpers and getOrCreateAccountVTokenTransaction: they write event-log and transaction entities that no modelled handler reads.
- updateCommonVTokenStats: modelled as getOrCreateAccountVToken. Its block and timestamp fields are left out, and operations/update.ts is not part of this model.
- The V1 handlers' contract call `balanceOf` is a function parameter giving the balance at the event's block.
- log calls: no effect on the store. In the governance accessors, log.critical aborts the handler, and this is modelled as the `Aborted` result.
- VTokenMappings.LiquidateBorrow: countLiquidator and countLiquidated are 32-bit integers in the schema, but unbounded here. A wrap after 2^31 - 1 liquidations by one account is not modelled.
- VTokenMappings.HandleLiquidateBorrow: the same 32-bit counter bound is not modelled.
- VTokenMappings.CountLiquidator: the same 32-bit counter bound is not modelled.
- VTokenMappings.CountLiquidated: the same 32-bit counter bound is not modelled.
- BigInt widths: all BigInt fields are unbounded integers, as in graph-ts.
- GovernanceGet.GovernanceStore.GetGovernanceEntity: the Governance record's decimal delegatedVotes is a `real`, and only its zero value is used.
- Proposal and Delegate fields other than the id are written by governance handlers outside this model.
- The isolated-pools subgraph (poolRegistry.ts) and the venus utilities re-export are outside the modelled core.
- Concurrency and the host's event ordering: the handlers are modelled as running one at a time in the order given.
