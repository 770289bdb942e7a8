/** The server's trading ledger in `render-deploy/server.js`: the buy and sell
    routes, which move money between an account's USD balance and its coin
    balances with a 0.25 % commission, and `updateUserPortfolio`, which keeps
    a weighted-average-cost portfolio per user next to the account.

    The coin table is a sequence of coins; accounts and portfolios are maps
    keyed by user id; the transaction table is an append-only sequence. The
    caller's identity (the token check) and random transaction ids are
    parameters. */
module ServerLedger {
  import opened Wrappers
  import opened Text
  import opened Holdings

  type UserId = string

  const CommissionRate: real := 0.0025
  /** USD balance of an account created on a user's first trade. */
  const StartingUsd: real := 10000.0

  datatype Coin = Coin(id: string, symbol: string, price: real)

  datatype TradeKind = BuyTrade | SellTrade

  datatype Transaction = Transaction(id: string, userId: UserId, kind: TradeKind, assetId: string,
                                     amount: real, price: real, usdAmount: real, commission: real, timestamp: int)

  datatype TradeError = InvalidParameters | AssetNotFound | InsufficientFunds | InsufficientAssets

  /** A portfolio row: holdings keyed by upper-case symbol, the totals over the
      priced holdings, and `totalProfit`, the realised profit of all sales. */
  datatype Portfolio = Portfolio(assets: Book, totalValue: real, totalInvested: real,
                                 totalProfit: real, profitPercent: real)

  const EmptyPortfolio := Portfolio([], 0.0, 0.0, 0.0, 0.0)

  /** The account created on a user's first trade. */
  function DefaultBalance(): (r: map<string, real>)
    ensures "USD" in r && r["USD"] == StartingUsd
  {
    map["USD" := StartingUsd, "BTC" := 0.0, "ETH" := 0.0]
  }

  /** `balance[k] || 0`. */
  function OrZero(balance: map<string, real>, k: string): real {
    if k in balance then balance[k] else 0.0
  }

  function Commission(usd: real): real {
    usd * CommissionRate
  }

  /** Storing an account and then replacing it leaves only the replacement. */
  lemma StoreThenReplace(m: map<UserId, map<string, real>>, k: UserId, v: map<string, real>, w: map<string, real>)
    ensures m[k := v][k := w] == m[k := w]
  {
  }

  /** The portfolio `updateUserPortfolio` starts from: the saved one, or
      an empty one. */
  function PortfolioOf(portfolios: map<UserId, Portfolio>, userId: UserId): Portfolio {
    if userId in portfolios then portfolios[userId] else EmptyPortfolio
  }

  /** The transaction the buy route records: `usdAmount` spent on `coin`,
      less the commission, buys `(usdAmount - commission) / price` units. */
  function BuyRecord(txId: string, userId: UserId, coin: Coin, usdAmount: real, now: int): (r: Transaction)
    requires coin.price > 0.0
    ensures r.kind == BuyTrade && r.assetId == coin.id && r.price == coin.price && r.usdAmount == usdAmount
    ensures r.commission == 0.0025 * usdAmount
    ensures r.amount * coin.price == 0.9975 * usdAmount
    ensures usdAmount > 0.0 ==> r.amount > 0.0
  {
    var commission := usdAmount * CommissionRate;
    Transaction(txId, userId, BuyTrade, coin.id, (usdAmount - commission) / coin.price, coin.price, usdAmount, commission, now)
  }

  /** The transaction the sell route records: `cryptoAmount` units of `coin`
      are worth `cryptoAmount * price`, on which the commission is charged. */
  function SellRecord(txId: string, userId: UserId, coin: Coin, cryptoAmount: real, now: int): (r: Transaction)
    ensures r.kind == SellTrade && r.assetId == coin.id && r.amount == cryptoAmount && r.price == coin.price
    ensures r.usdAmount == cryptoAmount * coin.price && r.commission == 0.0025 * r.usdAmount
  {
    var usdValue := cryptoAmount * coin.price;
    Transaction(txId, userId, SellTrade, coin.id, cryptoAmount, coin.price, usdValue, usdValue * CommissionRate, now)
  }

  /** `db.getCoinById`: the coin with that id, if any. */
  function FindCoin(coins: seq<Coin>, id: string): (r: Option<Coin>)
    ensures r.Some? ==> r.value in coins && r.value.id == id
    ensures r.None? ==> forall c :: c in coins ==> c.id != id
  {
    if coins == [] then None
    else if coins[0].id == id then Some(coins[0])
    else FindCoin(coins[1..], id)
  }

  /** The `coinsMap` built by `allCoins.forEach`: upper-case symbol to price,
      where a later coin with the same symbol replaces an earlier one. */
  function SymbolPrices(coins: seq<Coin>): map<string, real>
    decreases |coins|
  {
    if coins == [] then map[]
    else
      var last := coins[|coins| - 1];
      SymbolPrices(coins[..|coins| - 1])[Upper(last.symbol) := last.price]
  }

  /** Every coin's symbol has a price in `coinsMap`, and it is the price of the
      last coin with that symbol. */
  lemma {:induction false} SymbolPricesLastWins(coins: seq<Coin>, i: int)
    requires 0 <= i < |coins|
    requires forall j :: i < j < |coins| ==> Upper(coins[j].symbol) != Upper(coins[i].symbol)
    ensures Upper(coins[i].symbol) in SymbolPrices(coins)
    ensures SymbolPrices(coins)[Upper(coins[i].symbol)] == coins[i].price
    decreases |coins|
  {
    if i < |coins| - 1 {
      var init := coins[..|coins| - 1];
      assert init[i] == coins[i];
      SymbolPricesLastWins(init, i);
    }
  }

  /** Account balances after a buy of `usd` dollars of the coin whose
      upper-case symbol is `sym`: USD is debited first, then the coin credited. */
  function ApplyBuy(balance: map<string, real>, sym: string, usd: real, price: real): (r: map<string, real>)
    requires "USD" in balance && price > 0.0
    ensures r.Keys == balance.Keys + {sym}
    ensures sym != "USD" ==> r["USD"] == balance["USD"] - 1.0025 * usd
    ensures sym != "USD" ==> r[sym] == OrZero(balance, sym) + 0.9975 * usd / price
    ensures sym != "USD" ==> (r[sym] - OrZero(balance, sym)) * price == usd - Commission(usd)
    ensures sym == "USD" ==> r["USD"] == balance["USD"] - 1.0025 * usd + 0.9975 * usd / price
    ensures forall k :: k in balance && k != sym && k != "USD" ==> r[k] == balance[k]
  {
    var commission := Commission(usd);
    var debited := balance["USD" := balance["USD"] - (usd + commission)];
    debited[sym := OrZero(debited, sym) + (usd - commission) / price]
  }

  /** Account balances after selling `amount` of the coin `sym`: the held
      amount is read first, USD is credited, then the coin balance written. */
  function ApplySell(balance: map<string, real>, sym: string, amount: real, price: real): (r: map<string, real>)
    requires "USD" in balance
    ensures r.Keys == balance.Keys + {sym}
    ensures sym != "USD" ==> r["USD"] == balance["USD"] + 0.9975 * amount * price
    ensures r[sym] == OrZero(balance, sym) - amount
    ensures forall k :: k in balance && k != sym && k != "USD" ==> r[k] == balance[k]
  {
    var current := OrZero(balance, sym);
    var usdValue := amount * price;
    var credited := balance["USD" := balance["USD"] + (usdValue - Commission(usdValue))];
    credited[sym := current - amount]
  }

  /** The holdings step of `updateUserPortfolio`, with the profit a sale
      realises. A buy merges into the weighted average; a sale keeps the
      average, and removes the entry when nothing positive remains; selling
      a symbol the portfolio does not hold changes nothing. */
  function AdjustHoldings(assets: Book, sym: string, amount: real, price: real, kind: TradeKind): (r: (Book, real))
    requires amount > 0.0 && PositiveBalances(assets)
    ensures PositiveBalances(r.0)
    ensures forall k :: k != sym ==> Get(r.0, k) == Get(assets, k)
    ensures kind == BuyTrade ==>
              var old_ := Get(assets, sym).GetOr(EmptyHolding);
              r.1 == 0.0 && Get(r.0, sym).Some? &&
              Get(r.0, sym).value.balance == old_.balance + amount &&
              Get(r.0, sym).value.totalInvested == old_.totalInvested + amount * price &&
              Consistent(Get(r.0, sym).value)
    ensures kind == SellTrade && Get(assets, sym).None? ==> r == (assets, 0.0)
    ensures kind == SellTrade && Get(assets, sym).Some? ==>
              var h := Get(assets, sym).value;
              r.1 == RealisedProfit(h, amount, price) &&
              (h.balance > amount ==> Get(r.0, sym) == Some(Sell(h, amount))) &&
              (h.balance <= amount ==> Get(r.0, sym) == None)
  {
    match kind
    case BuyTrade => (BoughtHoldings(assets, sym, amount, price), 0.0)
    case SellTrade => SoldHoldings(assets, sym, amount, price)
  }

  /** The profit a sale realises over the holding's average price. */
  function RealisedProfit(h: Holding, amount: real, price: real): real {
    (price - h.averagePrice) * amount
  }

  /** The buy branch of `updateUserPortfolio`: the purchase is merged into
      the symbol's holding, created empty when absent. */
  function BoughtHoldings(assets: Book, sym: string, amount: real, price: real): (r: Book)
    requires amount > 0.0 && PositiveBalances(assets)
    ensures PositiveBalances(r)
    ensures forall k :: k != sym ==> Get(r, k) == Get(assets, k)
    ensures Get(r, sym) == Some(Buy(Get(assets, sym).GetOr(EmptyHolding), amount, price))
  {
    var current := Get(assets, sym).GetOr(EmptyHolding);
    assert current.balance >= 0.0;
    Set(assets, sym, Buy(current, amount, price))
  }

  /** The sell branch of `updateUserPortfolio`: the profit realised at the
      average price, and the holding reduced or deleted. */
  function SoldHoldings(assets: Book, sym: string, amount: real, price: real): (r: (Book, real))
    requires PositiveBalances(assets)
    ensures PositiveBalances(r.0)
    ensures forall k :: k != sym ==> Get(r.0, k) == Get(assets, k)
    ensures Get(assets, sym).None? ==> r == (assets, 0.0)
    ensures Get(assets, sym).Some? ==>
              var h := Get(assets, sym).value;
              r.1 == RealisedProfit(h, amount, price) &&
              (h.balance > amount ==> Get(r.0, sym) == Some(Sell(h, amount))) &&
              (h.balance <= amount ==> Get(r.0, sym) == None)
  {
    match Get(assets, sym)
    case None => (assets, 0.0)
    case Some(h) =>
      var profit := RealisedProfit(h, amount, price);
      if h.balance - amount > 0.0 then (Set(assets, sym, Sell(h, amount)), profit)
      else (Delete(assets, sym), profit)
  }

  /** The recomputation at the end of `updateUserPortfolio`: value and
      investment over the holdings whose symbol has a coin. `totalProfit`
      is left as it is. */
  function Repriced(p: Portfolio, prices: map<string, real>): (r: Portfolio)
    ensures r.assets == p.assets && r.totalProfit == p.totalProfit
    ensures r.totalValue == PricedValue(p.assets, prices)
    ensures r.totalInvested == PricedInvested(p.assets, prices)
    ensures r.profitPercent == ProfitPercent(r.totalValue, r.totalInvested)
  {
    var value := PricedValue(p.assets, prices);
    var invested := PricedInvested(p.assets, prices);
    p.(totalValue := value, totalInvested := invested, profitPercent := ProfitPercent(value, invested))
  }

  /** The portfolio `updateUserPortfolio` saves after a trade. */
  function PortfolioAfterTrade(p: Portfolio, sym: string, amount: real, price: real, kind: TradeKind,
                               prices: map<string, real>): (r: Portfolio)
    requires amount > 0.0 && PositiveBalances(p.assets)
    ensures r.assets == AdjustHoldings(p.assets, sym, amount, price, kind).0
    ensures r.totalProfit == p.totalProfit + AdjustHoldings(p.assets, sym, amount, price, kind).1
    ensures r.totalValue == PricedValue(r.assets, prices) && r.totalInvested == PricedInvested(r.assets, prices)
    ensures r.profitPercent == ProfitPercent(r.totalValue, r.totalInvested)
  {
    var (assets, profit) := AdjustHoldings(p.assets, sym, amount, price, kind);
    Repriced(p.(assets := assets, totalProfit := p.totalProfit + profit), prices)
  }

  /** A purchase moves the symbol's average price towards the purchase price
      and never past it. */
  lemma BuyKeepsAverageBetween(assets: Book, sym: string, amount: real, price: real)
    requires amount > 0.0 && PositiveBalances(assets)
    requires Get(assets, sym).Some? && Consistent(Get(assets, sym).value)
    ensures var before := Get(assets, sym).value.averagePrice;
            var after := Get(AdjustHoldings(assets, sym, amount, price, BuyTrade).0, sym).value.averagePrice;
            (before <= price ==> before <= after <= price) &&
            (price <= before ==> price <= after <= before)
  {
    var h := Get(assets, sym).value;
    assert h.balance > 0.0;
    BuyAverageBetween(h, amount, price);
  }

  /** The trade step keeps the portfolio's symbols distinct. */
  lemma AdjustKeepsUniqueKeys(assets: Book, sym: string, amount: real, price: real, kind: TradeKind)
    requires amount > 0.0 && PositiveBalances(assets) && UniqueKeys(assets)
    ensures UniqueKeys(AdjustHoldings(assets, sym, amount, price, kind).0)
  {
    var current := Get(assets, sym).GetOr(EmptyHolding);
    match kind
    case BuyTrade =>
      SetUnique(assets, sym, Buy(current, amount, price));
    case SellTrade =>
      if Get(assets, sym).Some? {
        SetUnique(assets, sym, Sell(current, amount));
        DeleteUnique(assets, sym);
      }
  }

  ghost predicate WellFormed(p: Portfolio) {
    UniqueKeys(p.assets) && PositiveBalances(p.assets)
  }

  /** The in-place update of `portfolio.assets` in `updateUserPortfolio`. */
  method TradeHoldings(assets: Book, sym: string, amount: real, price: real, kind: TradeKind)
    returns (updated: Book, profit: real)
    requires amount > 0.0 && PositiveBalances(assets)
    ensures updated == AdjustHoldings(assets, sym, amount, price, kind).0
    ensures profit == AdjustHoldings(assets, sym, amount, price, kind).1
  {
    updated, profit := assets, 0.0;
    match kind {
      case BuyTrade =>
        var current := Get(updated, sym).GetOr(EmptyHolding);
        updated := Set(updated, sym, Buy(current, amount, price));
      case SellTrade =>
        var entry := Get(updated, sym);
        if entry.Some? {
          var remaining := entry.value.balance - amount;
          profit := RealisedProfit(entry.value, amount, price);
          if remaining > 0.0 {
            updated := Set(updated, sym, Sell(entry.value, amount));
          } else {
            updated := Delete(updated, sym);
          }
        }
    }
  }

  /** The body of `updateUserPortfolio` between loading and saving the row:
      the holdings are adjusted in place, the realised profit added, and the
      totals recomputed at the coin prices. */
  method TradePortfolio(portfolio: Portfolio, sym: string, amount: real, price: real, kind: TradeKind,
                        prices: map<string, real>) returns (updated: Portfolio)
    requires amount > 0.0 && WellFormed(portfolio)
    ensures updated == PortfolioAfterTrade(portfolio, sym, amount, price, kind, prices)
    ensures WellFormed(updated)
  {
    var assets, profit := TradeHoldings(portfolio.assets, sym, amount, price, kind);
    var totalProfit := portfolio.totalProfit + profit;
    AdjustKeepsUniqueKeys(portfolio.assets, sym, amount, price, kind);
    var totalValue, totalInvested := Totals(assets, prices);
    updated := Portfolio(assets, totalValue, totalInvested, totalProfit, ProfitPercent(totalValue, totalInvested));
    ghost var expected := PortfolioAfterTrade(portfolio, sym, amount, price, kind, prices);
    assert updated.assets == expected.assets && updated.totalProfit == expected.totalProfit;
    assert updated.totalValue == expected.totalValue && updated.totalInvested == expected.totalInvested;
  }

  /** The server's stored state. */
  class Exchange {
    var coins: seq<Coin>
    var accounts: map<UserId, map<string, real>>
    var portfolios: map<UserId, Portfolio>
    var transactions: seq<Transaction>

    /** Coins have positive prices, every account has a USD balance, and every
        portfolio holds distinct symbols with positive amounts. */
    ghost predicate Valid()
      reads this
    {
      (forall i :: 0 <= i < |coins| ==> coins[i].price > 0.0) &&
      (forall u :: u in accounts ==> "USD" in accounts[u]) &&
      (forall u :: u in portfolios ==> WellFormed(portfolios[u]))
    }

    constructor (coins: seq<Coin>)
      requires forall i :: 0 <= i < |coins| ==> coins[i].price > 0.0
      ensures Valid()
      ensures this.coins == coins && accounts == map[] && portfolios == map[] && transactions == []
    {
      this.coins := coins;
      accounts := map[];
      portfolios := map[];
      transactions := [];
    }

    /** Finds the account, creating and storing the default one if missing. */
    method EnsureAccount(userId: UserId)
      requires Valid()
      modifies this
      ensures Valid()
      ensures accounts == if userId in old(accounts) then old(accounts) else old(accounts)[userId := DefaultBalance()]
      ensures accounts == old(accounts)[userId := old(AccountOf(userId))]
      ensures coins == old(coins) && portfolios == old(portfolios) && transactions == old(transactions)
    {
      if userId !in accounts {
        accounts := accounts[userId := DefaultBalance()];
      }
    }

    /** `updateUserPortfolio`. Does nothing when the asset is not in the coin table. */
    method UpdateUserPortfolio(userId: UserId, assetId: string, amount: real, price: real, kind: TradeKind)
      requires Valid() && amount > 0.0
      modifies this
      ensures Valid()
      ensures coins == old(coins) && accounts == old(accounts) && transactions == old(transactions)
      ensures FindCoin(coins, assetId).None? ==> portfolios == old(portfolios)
      ensures FindCoin(coins, assetId).Some? ==>
                portfolios == old(portfolios)[userId := PortfolioAfterTrade(PortfolioOf(old(portfolios), userId),
                                                                            Upper(FindCoin(coins, assetId).value.symbol),
                                                                            amount, price, kind, SymbolPrices(coins))]
    {
      var portfolio := PortfolioOf(portfolios, userId);
      var asset := FindCoin(coins, assetId);
      if asset.None? {
        return;
      }
      var sym := Upper(asset.value.symbol);
      portfolio := TradePortfolio(portfolio, sym, amount, price, kind, SymbolPrices(coins));
      portfolios := portfolios[userId := portfolio];
    }

    /** The account of `userId` after `EnsureAccount`. */
    function AccountOf(userId: UserId): (r: map<string, real>)
      requires Valid()
      reads this
      ensures "USD" in r
    {
      if userId in accounts then accounts[userId] else DefaultBalance()
    }

    /** The buy route: spend `usdAmount` dollars (commission included on top)
        on the coin `assetId`. The default account is stored before the funds
        check, so it is kept even when the buy is refused. */
    method BuyRoute(userId: UserId, assetId: string, usdAmount: real, txId: string, now: int)
      returns (r: Result<Transaction, TradeError>)
      requires Valid()
      modifies this
      ensures Valid()
      ensures coins == old(coins)
      ensures r == Failure(InvalidParameters) <==> assetId == [] || usdAmount < 1.0
      ensures r == Failure(AssetNotFound) <==> assetId != [] && usdAmount >= 1.0 && FindCoin(coins, assetId).None?
      ensures r == Failure(InvalidParameters) || r == Failure(AssetNotFound) ==>
                accounts == old(accounts) && portfolios == old(portfolios) && transactions == old(transactions)
      ensures r == Failure(InsufficientFunds) ==>
                old(AccountOf(userId))["USD"] < 1.0025 * usdAmount &&
                accounts == old(accounts)[userId := old(AccountOf(userId))] &&
                portfolios == old(portfolios) && transactions == old(transactions)
      ensures r.Success? ==>
                var coin := FindCoin(coins, assetId).value;
                old(AccountOf(userId))["USD"] >= 1.0025 * usdAmount &&
                accounts == old(accounts)[userId := ApplyBuy(old(AccountOf(userId)), Upper(coin.symbol), usdAmount, coin.price)] &&
                transactions == old(transactions) + [r.value] &&
                r.value == BuyRecord(txId, userId, coin, usdAmount, now) &&
                portfolios == old(portfolios)[userId := PortfolioAfterTrade(PortfolioOf(old(portfolios), userId), Upper(coin.symbol),
                                                                            r.value.amount, coin.price, BuyTrade, SymbolPrices(coins))]
      ensures r.Failure? ==> r.error != InsufficientAssets
    {
      if assetId == [] || usdAmount < 1.0 {
        return Failure(InvalidParameters);
      }
      var asset := FindCoin(coins, assetId);
      if asset.None? {
        return Failure(AssetNotFound);
      }
      ghost var before, account := accounts, AccountOf(userId);
      EnsureAccount(userId);
      var commission := usdAmount * CommissionRate;
      var totalCost := usdAmount + commission;
      if accounts[userId]["USD"] < totalCost {
        return Failure(InsufficientFunds);
      }
      var tx := SettleBuy(userId, asset.value, usdAmount, txId, now);
      StoreThenReplace(before, userId, account, ApplyBuy(account, Upper(asset.value.symbol), usdAmount, asset.value.price));
      return Success(tx);
    }

    /** The part of the buy route after the checks: debit and credit the
        account, record the transaction, update the portfolio. */
    method SettleBuy(userId: UserId, coin: Coin, usdAmount: real, txId: string, now: int) returns (tx: Transaction)
      requires Valid() && FindCoin(coins, coin.id) == Some(coin) && userId in accounts && usdAmount >= 1.0
      requires accounts[userId]["USD"] >= usdAmount + Commission(usdAmount)
      modifies this
      ensures Valid()
      ensures coins == old(coins)
      ensures accounts == old(accounts)[userId := ApplyBuy(old(accounts)[userId], Upper(coin.symbol), usdAmount, coin.price)]
      ensures tx == BuyRecord(txId, userId, coin, usdAmount, now)
      ensures transactions == old(transactions) + [tx]
      ensures portfolios == old(portfolios)[userId := PortfolioAfterTrade(PortfolioOf(old(portfolios), userId), Upper(coin.symbol),
                                                                          tx.amount, coin.price, BuyTrade, SymbolPrices(coins))]
    {
      accounts := accounts[userId := ApplyBuy(accounts[userId], Upper(coin.symbol), usdAmount, coin.price)];
      tx := BuyRecord(txId, userId, coin, usdAmount, now);
      transactions := transactions + [tx];
      UpdateUserPortfolio(userId, coin.id, tx.amount, coin.price, BuyTrade);
    }

    /** The sell route: sell `cryptoAmount` units of the coin `assetId`. The
        held amount is read from the account's balances. */
    method SellRoute(userId: UserId, assetId: string, cryptoAmount: real, txId: string, now: int)
      returns (r: Result<Transaction, TradeError>)
      requires Valid()
      modifies this
      ensures Valid()
      ensures coins == old(coins)
      ensures r == Failure(InvalidParameters) <==> assetId == [] || cryptoAmount <= 0.0
      ensures r == Failure(AssetNotFound) <==> assetId != [] && cryptoAmount > 0.0 && FindCoin(coins, assetId).None?
      ensures r == Failure(InvalidParameters) || r == Failure(AssetNotFound) ==>
                accounts == old(accounts) && portfolios == old(portfolios) && transactions == old(transactions)
      ensures r == Failure(InsufficientAssets) ==>
                OrZero(old(AccountOf(userId)), Upper(FindCoin(coins, assetId).value.symbol)) < cryptoAmount &&
                accounts == old(accounts)[userId := old(AccountOf(userId))] &&
                portfolios == old(portfolios) && transactions == old(transactions)
      ensures r.Success? ==>
                var coin := FindCoin(coins, assetId).value;
                OrZero(old(AccountOf(userId)), Upper(coin.symbol)) >= cryptoAmount &&
                accounts == old(accounts)[userId := ApplySell(old(AccountOf(userId)), Upper(coin.symbol), cryptoAmount, coin.price)] &&
                transactions == old(transactions) + [r.value] &&
                r.value == SellRecord(txId, userId, coin, cryptoAmount, now) &&
                portfolios == old(portfolios)[userId := PortfolioAfterTrade(PortfolioOf(old(portfolios), userId), Upper(coin.symbol),
                                                                            cryptoAmount, coin.price, SellTrade, SymbolPrices(coins))]
      ensures r.Failure? ==> r.error != InsufficientFunds
    {
      if assetId == [] || cryptoAmount <= 0.0 {
        return Failure(InvalidParameters);
      }
      var asset := FindCoin(coins, assetId);
      if asset.None? {
        return Failure(AssetNotFound);
      }
      ghost var before, account := accounts, AccountOf(userId);
      EnsureAccount(userId);
      var currentBalance := OrZero(accounts[userId], Upper(asset.value.symbol));
      if currentBalance < cryptoAmount {
        return Failure(InsufficientAssets);
      }
      var tx := SettleSell(userId, asset.value, cryptoAmount, txId, now);
      StoreThenReplace(before, userId, account, ApplySell(account, Upper(asset.value.symbol), cryptoAmount, asset.value.price));
      return Success(tx);
    }

    /** The part of the sell route after the checks. */
    method SettleSell(userId: UserId, coin: Coin, cryptoAmount: real, txId: string, now: int) returns (tx: Transaction)
      requires Valid() && FindCoin(coins, coin.id) == Some(coin) && userId in accounts && cryptoAmount > 0.0
      modifies this
      ensures Valid()
      ensures coins == old(coins)
      ensures accounts == old(accounts)[userId := ApplySell(old(accounts)[userId], Upper(coin.symbol), cryptoAmount, coin.price)]
      ensures tx == SellRecord(txId, userId, coin, cryptoAmount, now)
      ensures transactions == old(transactions) + [tx]
      ensures portfolios == old(portfolios)[userId := PortfolioAfterTrade(PortfolioOf(old(portfolios), userId), Upper(coin.symbol),
                                                                          cryptoAmount, coin.price, SellTrade, SymbolPrices(coins))]
    {
      accounts := accounts[userId := ApplySell(accounts[userId], Upper(coin.symbol), cryptoAmount, coin.price)];
      tx := SellRecord(txId, userId, coin, cryptoAmount, now);
      transactions := transactions + [tx];
      UpdateUserPortfolio(userId, coin.id, cryptoAmount, coin.price, SellTrade);
    }
  }

  /** Per-asset figures `calculateCurrentPortfolioValues` adds to a priced holding. */
  datatype AssetValue = AssetValue(currentPrice: real, currentValue: real, profitLoss: real, profitLossPercent: real)

  /** The figures for one holding, or None when its symbol has no coin. */
  function Valuation(e: (string, Holding), prices: map<string, real>): (r: Option<AssetValue>)
    ensures r.Some? <==> e.0 in prices
    ensures r.Some? ==> r.value.currentValue == e.1.balance * prices[e.0] &&
                        r.value.profitLoss == r.value.currentValue - e.1.totalInvested &&
                        (e.1.totalInvested <= 0.0 ==> r.value.profitLossPercent == 0.0) &&
                        (e.1.totalInvested > 0.0 ==> (r.value.profitLossPercent > 0.0 <==> r.value.profitLoss > 0.0))
  {
    if e.0 in prices then
      var value := e.1.balance * prices[e.0];
      Some(AssetValue(prices[e.0], value, value - e.1.totalInvested, ProfitPercent(value, e.1.totalInvested)))
    else None
  }

  /** `calculateCurrentPortfolioValues`: prices every holding whose symbol has a
      coin, and replaces the totals; unlike `updateUserPortfolio` it sets
      `totalProfit` to the unrealised profit `totalValue - totalInvested`.
      `values[i]` holds the figures added to the `i`-th holding. */
  method CurrentPortfolioValues(p: Portfolio, coins: seq<Coin>) returns (r: Portfolio, values: seq<Option<AssetValue>>)
    ensures r.assets == p.assets
    ensures r.totalValue == PricedValue(p.assets, SymbolPrices(coins))
    ensures r.totalInvested == PricedInvested(p.assets, SymbolPrices(coins))
    ensures r.totalProfit == r.totalValue - r.totalInvested
    ensures r.profitPercent == ProfitPercent(r.totalValue, r.totalInvested)
    ensures |values| == |p.assets|
    ensures forall i :: 0 <= i < |values| ==> values[i] == Valuation(p.assets[i], SymbolPrices(coins))
  {
    var prices := SymbolPrices(coins);
    var totalValue, totalInvested := 0.0, 0.0;
    values := [];
    var i := 0;
    while i < |p.assets|
      invariant 0 <= i <= |p.assets| && |values| == i
      invariant totalValue == Seqs.Sum(p.assets[..i], ValueTerm(prices))
      invariant totalInvested == Seqs.Sum(p.assets[..i], InvestedTerm(prices))
      invariant forall j :: 0 <= j < i ==> values[j] == Valuation(p.assets[j], prices)
    {
      var (symbol, asset) := p.assets[i];
      assert p.assets[..i + 1][..i] == p.assets[..i];
      var value := Valuation(p.assets[i], prices);
      if symbol in prices {
        totalValue := totalValue + value.value.currentValue;
        totalInvested := totalInvested + asset.totalInvested;
      }
      values := values + [value];
      i := i + 1;
    }
    assert p.assets[..i] == p.assets;
    r := p.(totalValue := totalValue, totalInvested := totalInvested, totalProfit := totalValue - totalInvested,
            profitPercent := ProfitPercent(totalValue, totalInvested));
  }
}
