/**
 * The indexer's entity store as the mappings see it: Market records keyed by
 * vToken address, Account records keyed by address, AccountVToken records
 * keyed by the (market, account) pair, and the singleton Comptroller.
 *
 * `State` is the store as a value, used to specify the handlers; `Store` is
 * the store the handlers load from and save to in place.
 */
module EntityStore {
  import opened Entities

  datatype Option<T> = None | Some(value: T)

  datatype State = State(
    markets: map<Address, Market>,
    accounts: map<Address, Account>,
    positions: map<(Address, Address), AccountVToken>,
    comptroller: Option<Comptroller>)

  const Empty: State := State(map[], map[], map[], None)

  /** What getOrCreateMarket yields: the stored record, or a fresh one. */
  function MarketOf(st: State, id: Address): Market
  {
    if id in st.markets then st.markets[id] else NewMarket()
  }

  /** What getOrCreateAccount yields. */
  function AccountOf(st: State, id: Address): Account
  {
    if id in st.accounts then st.accounts[id] else NewAccount()
  }

  /**
   * What getOrCreateAccountVToken yields for an account in a market whose
   * symbol the caller passes: the stored position, or a fresh one carrying
   * that symbol.
   */
  function PositionWithSymbol(st: State, market: Address, account: Address, symbol: string): AccountVToken
  {
    if (market, account) in st.positions then st.positions[(market, account)] else NewAccountVToken(symbol)
  }

  /** The same, with the symbol of the market as getOrCreateMarket yields it. */
  function PositionOf(st: State, market: Address, account: Address): AccountVToken
  {
    PositionWithSymbol(st, market, account, MarketOf(st, market).symbol)
  }

  /** What getOrCreateComptroller yields. */
  function ComptrollerOf(st: State): Comptroller
  {
    if st.comptroller.Some? then st.comptroller.value else NewComptroller()
  }

  /** From st to r, only the markets named in ids may be created or changed; every one of them is stored in r. */
  ghost predicate MarketsOnly(st: State, r: State, ids: set<Address>)
  {
    && r.markets.Keys == st.markets.Keys + ids
    && forall k :: k in st.markets && k !in ids ==> r.markets[k] == st.markets[k]
  }

  /** From st to r, only the accounts named in ids may be created or changed; every one of them is stored in r. */
  ghost predicate AccountsOnly(st: State, r: State, ids: set<Address>)
  {
    && r.accounts.Keys == st.accounts.Keys + ids
    && forall k :: k in st.accounts && k !in ids ==> r.accounts[k] == st.accounts[k]
  }

  /** From st to r, only the positions named in keys may be created or changed; every one of them is stored in r. */
  ghost predicate PositionsOnly(st: State, r: State, keys: set<(Address, Address)>)
  {
    && r.positions.Keys == st.positions.Keys + keys
    && forall k :: k in st.positions && k !in keys ==> r.positions[k] == st.positions[k]
  }

  /** The store the handlers run against. */
  class Store {
    var markets: map<Address, Market>
    var accounts: map<Address, Account>
    var positions: map<(Address, Address), AccountVToken>
    var comptroller: Option<Comptroller>

    function Snapshot(): State
      reads this
    {
      State(markets, accounts, positions, comptroller)
    }

    constructor ()
      ensures Snapshot() == Empty
    {
      markets, accounts, positions, comptroller := map[], map[], map[], None;
    }

    /** `Market.load(id)`. */
    method LoadMarket(id: Address) returns (m: Option<Market>)
      ensures m == if id in markets then Some(markets[id]) else None
    {
      m := if id in markets then Some(markets[id]) else None;
    }

    /** `Account.load(id)`. */
    method LoadAccount(id: Address) returns (a: Option<Account>)
      ensures a == if id in accounts then Some(accounts[id]) else None
    {
      a := if id in accounts then Some(accounts[id]) else None;
    }

    /** `market.save()`: the record replaces whatever was stored under its id. */
    method SaveMarket(id: Address, m: Market)
      modifies this`markets
      ensures markets == old(markets)[id := m]
    {
      markets := markets[id := m];
    }

    /** `account.save()`. */
    method SaveAccount(id: Address, a: Account)
      modifies this`accounts
      ensures accounts == old(accounts)[id := a]
    {
      accounts := accounts[id := a];
    }

    /** `accountVToken.save()`, the id being the (market, account) pair. */
    method SaveAccountVToken(market: Address, account: Address, p: AccountVToken)
      modifies this`positions
      ensures positions == old(positions)[(market, account) := p]
    {
      positions := positions[(market, account) := p];
    }

    /** `comptroller.save()`. */
    method SaveComptroller(c: Comptroller)
      modifies this`comptroller
      ensures comptroller == Some(c)
    {
      comptroller := Some(c);
    }

    /**
     * getOrCreateMarket, without its accrual refresh: the stored market, or a
     * fresh one that is saved first. The source also re-reads a stale
     * market's exchange rate, borrow index, rates and accrual block from the
     * vToken contract; that refresh is not part of this model, so a stored
     * market comes back as it was stored.
     */
    method GetOrCreateMarket(id: Address) returns (m: Market)
      modifies this`markets
      ensures m == MarketOf(old(Snapshot()), id)
      ensures markets == old(markets)[id := m]
    {
      if id in markets {
        m := markets[id];
      } else {
        m := NewMarket();
        SaveMarket(id, m);
      }
    }

    /** createMarket: a fresh market, saved over whatever was there. */
    method CreateMarket(id: Address) returns (m: Market)
      modifies this`markets
      ensures m == NewMarket()
      ensures markets == old(markets)[id := m]
    {
      m := NewMarket();
      SaveMarket(id, m);
    }

    /** getOrCreateAccount. */
    method GetOrCreateAccount(id: Address) returns (a: Account)
      modifies this`accounts
      ensures a == AccountOf(old(Snapshot()), id)
      ensures accounts == old(accounts)[id := a]
    {
      if id in accounts {
        a := accounts[id];
      } else {
        a := NewAccount();
        SaveAccount(id, a);
      }
    }

    /** createAccount: a fresh account, saved over whatever was there. */
    method CreateAccount(id: Address)
      modifies this`accounts
      ensures accounts == old(accounts)[id := NewAccount()]
    {
      SaveAccount(id, NewAccount());
    }

    /** getOrCreateAccountVToken(market.id, market.symbol, account.id, event). */
    method GetOrCreateAccountVToken(market: Address, symbol: string, account: Address) returns (p: AccountVToken)
      modifies this`positions
      ensures p == PositionWithSymbol(old(Snapshot()), market, account, symbol)
      ensures positions == old(positions)[(market, account) := p]
    {
      if (market, account) in positions {
        p := positions[(market, account)];
      } else {
        p := NewAccountVToken(symbol);
        SaveAccountVToken(market, account, p);
      }
    }

    /** getOrCreateComptroller. */
    method GetOrCreateComptroller() returns (c: Comptroller)
      modifies this`comptroller
      ensures c == ComptrollerOf(old(Snapshot()))
      ensures comptroller == Some(c)
    {
      if comptroller.Some? {
        c := comptroller.value;
      } else {
        c := NewComptroller();
        SaveComptroller(c);
      }
    }
  }
}
