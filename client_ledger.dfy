/** The browser-side exchange of `public/birja/ro2rpj/script.js`: a market
    asset with its running 24-hour range, a portfolio kept as a `Map` of
    weighted-average holdings, a newest-first transaction list, and the
    balance manager that ties a cash account to them.

    The global `assetManager` is a parameter `market`, mapping an asset id to
    its current price; its prices are positive (the simulated market only
    multiplies them by factors near 1). `Date.now()` and random ids are
    parameters. */
module ClientLedger {
  import opened Wrappers
  import opened Seqs
  import opened Holdings

  const CommissionRate: real := 0.0025
  const MinTradeAmount: real := 1.0
  const MaxTradeAmount: real := 1000000.0

  /** `(new - old) / old * 100`, or 0 when the old price is not positive. */
  function ChangePercent(oldPrice: real, newPrice: real): (r: real)
    ensures oldPrice <= 0.0 ==> r == 0.0
    ensures oldPrice > 0.0 ==> r * oldPrice == (newPrice - oldPrice) * 100.0
    ensures oldPrice > 0.0 ==> (r > 0.0 <==> newPrice > oldPrice) && (r < 0.0 <==> newPrice < oldPrice)
  {
    if oldPrice > 0.0 then (newPrice - oldPrice) / oldPrice * 100.0 else 0.0
  }

  /** A market asset (`class Asset`), reduced to its price fields. */
  class Asset {
    var price: real
    var change: real
    var changePercent: real
    var high24h: real
    var low24h: real
    var lastUpdated: int

    /** The 24-hour range always contains the current price. */
    ghost predicate Valid()
      reads this
    {
      low24h <= price <= high24h
    }

    constructor (price: real, now: int)
      ensures Valid()
      ensures this.price == price && change == 0.0 && changePercent == 0.0
      ensures high24h == price && low24h == price && lastUpdated == now
    {
      this.price := price;
      change := 0.0;
      changePercent := 0.0;
      high24h := price;
      low24h := price;
      lastUpdated := now;
    }

    /** `updatePrice`: records the move and widens the 24-hour range. */
    method UpdatePrice(newPrice: real, now: int)
      requires Valid()
      modifies this
      ensures Valid()
      ensures price == newPrice && change == newPrice - old(price)
      ensures changePercent == ChangePercent(old(price), newPrice)
      ensures high24h >= old(high24h) && low24h <= old(low24h)
      ensures high24h == (if newPrice > old(high24h) then newPrice else old(high24h))
      ensures low24h == (if newPrice < old(low24h) then newPrice else old(low24h))
      ensures lastUpdated == now
    {
      var oldPrice := price;
      price := newPrice;
      change := newPrice - oldPrice;
      changePercent := if oldPrice > 0.0 then (newPrice - oldPrice) / oldPrice * 100.0 else 0.0;
      lastUpdated := now;
      if newPrice > high24h {
        high24h := newPrice;
      }
      if newPrice < low24h {
        low24h := newPrice;
      }
    }
  }

  /** `class Portfolio`: holdings by asset id and totals at market prices. */
  class Portfolio {
    var assets: Book
    var totalValue: real
    var totalInvested: real
    var totalProfit: real
    var profitPercent: real

    ghost predicate Valid()
      reads this
    {
      UniqueKeys(assets) && PositiveBalances(assets) && AllConsistent(assets)
    }

    /** The totals as `updateTotalValue` leaves them. */
    ghost predicate TotalsAt(market: map<string, real>)
      reads this
    {
      totalValue == PricedValue(assets, market) &&
      totalInvested == PricedInvested(assets, market) &&
      totalProfit == totalValue - totalInvested &&
      profitPercent == ProfitPercent(totalValue, totalInvested)
    }

    constructor ()
      ensures Valid() && assets == []
      ensures totalValue == 0.0 && totalInvested == 0.0 && totalProfit == 0.0 && profitPercent == 0.0
    {
      assets := [];
      totalValue, totalInvested, totalProfit, profitPercent := 0.0, 0.0, 0.0, 0.0;
    }

    /** `updateTotalValue`: totals over the holdings whose asset the market knows. */
    method UpdateTotalValue(market: map<string, real>)
      modifies this
      ensures assets == old(assets)
      ensures TotalsAt(market)
    {
      var value, invested := Totals(assets, market);
      totalValue := value;
      totalInvested := invested;
      totalProfit := totalValue - totalInvested;
      profitPercent := if totalInvested > 0.0 then totalProfit / totalInvested * 100.0 else 0.0;
    }

    /** `addAsset`: merges a purchase into the holding, creating it first. */
    method AddAsset(assetId: string, amount: real, price: real, market: map<string, real>)
      requires Valid() && amount > 0.0
      modifies this
      ensures Valid() && TotalsAt(market)
      ensures assets == Set(old(assets), assetId, Buy(Get(old(assets), assetId).GetOr(EmptyHolding), amount, price))
    {
      var asset := Get(assets, assetId).GetOr(EmptyHolding);
      BuyKeepsBook(assets, assetId, amount, price);
      assets := Set(assets, assetId, Buy(asset, amount, price));
      UpdateTotalValue(market);
    }

    /** `removeAsset`: false, changing nothing, for a missing or too small
        holding; otherwise lowers the balance, rescales the investment to the
        average price, and deletes the holding once nothing positive is left. */
    method RemoveAsset(assetId: string, amount: real, market: map<string, real>) returns (ok: bool)
      requires Valid()
      modifies this
      ensures Valid()
      ensures ok <==> Get(old(assets), assetId).Some? && Get(old(assets), assetId).value.balance >= amount
      ensures !ok ==> assets == old(assets) && totalValue == old(totalValue) && totalInvested == old(totalInvested) &&
                      totalProfit == old(totalProfit) && profitPercent == old(profitPercent)
      ensures ok ==> TotalsAt(market) &&
                     var h := Get(old(assets), assetId).value;
                     assets == if h.balance - amount <= 0.0 then Delete(old(assets), assetId)
                               else Set(old(assets), assetId, Sell(h, amount))
    {
      var entry := Get(assets, assetId);
      if entry.None? {
        return false;
      }
      var asset := entry.value;
      if asset.balance < amount {
        return false;
      }
      asset := Sell(asset, amount);
      if asset.balance <= 0.0 {
        DeleteUnique(assets, assetId);
        assets := Delete(assets, assetId);
      } else {
        SetUnique(assets, assetId, asset);
        assets := Set(assets, assetId, asset);
      }
      UpdateTotalValue(market);
      return true;
    }
  }

  datatype TxType = BuyTx | SellTx | DepositTx | WithdrawTx

  /** The `type` string a transaction carries. */
  function TypeName(t: TxType): string {
    match t
    case BuyTx => "buy"
    case SellTx => "sell"
    case DepositTx => "deposit"
    case WithdrawTx => "withdraw"
  }

  /** `class Transaction`; `totalValue` is `amount * price`. */
  datatype Transaction = Transaction(id: string, txType: TxType, assetId: Option<string>, amount: real,
                                     price: real, fee: real, totalValue: real, timestamp: int)

  function NewTransaction(id: string, t: TxType, assetId: Option<string>, amount: real, price: real, fee: real,
                          now: int): Transaction {
    Transaction(id, t, assetId, amount, price, fee, amount * price, now)
  }

  /** A transaction passes the `getTransactions` filter. */
  predicate PassesFilter(tx: Transaction, filter: string) {
    filter == "all" || TypeName(tx.txType) == filter
  }

  /** Number of transactions of one type (`typeStats[type]`). */
  function TypeCount(txs: seq<Transaction>, t: TxType): (r: nat)
    ensures r <= |txs|
  {
    |Filter(txs, (tx: Transaction) => tx.txType == t)|
  }

  /** The four per-type counts of `getStats` add up to the number of transactions. */
  lemma {:induction false} TypeCountsSum(txs: seq<Transaction>)
    ensures TypeCount(txs, BuyTx) + TypeCount(txs, SellTx) + TypeCount(txs, DepositTx) + TypeCount(txs, WithdrawTx) == |txs|
  {
    if txs != [] {
      TypeCountsSum(txs[1..]);
    }
  }

  datatype TxStats = TxStats(totalTransactions: nat, totalVolume: real, avgTransaction: real)

  /** `getStats`: count, summed `totalValue`, and average (0 for none). */
  function Stats(txs: seq<Transaction>): (r: TxStats)
    ensures r.totalTransactions == |txs|
    ensures r.totalVolume == Sum(txs, (tx: Transaction) => tx.totalValue)
    ensures |txs| == 0 ==> r.avgTransaction == 0.0
    ensures |txs| > 0 ==> r.avgTransaction * |txs| as real == r.totalVolume
  {
    var volume := Sum(txs, (tx: Transaction) => tx.totalValue);
    TxStats(|txs|, volume, if |txs| > 0 then volume / |txs| as real else 0.0)
  }

  /** The global `transactionManager`. */
  class TransactionManager {
    /** Newest first. */
    var transactions: seq<Transaction>

    constructor ()
      ensures transactions == []
    {
      transactions := [];
    }

    /** `addTransaction`: the new transaction goes first. */
    method AddTransaction(tx: Transaction)
      modifies this
      ensures transactions == [tx] + old(transactions)
    {
      transactions := [tx] + transactions;
    }

    /** `getTransactions(filter, limit)`: the newest `limit` transactions of
        the type, or of any type for `'all'`, in stored order. */
    function GetTransactions(filter: string, limit: int): (r: seq<Transaction>)
      reads this
      ensures forall i :: 0 <= i < |r| ==> PassesFilter(r[i], filter)
      ensures SubsequenceOf(r, transactions)
      ensures var matches := if filter == "all" then transactions else Filter(transactions, OfType(filter));
              |r| <= |matches| && r == matches[..|r|] &&
              (limit >= 0 ==> |r| == if limit < |matches| then limit else |matches|)
    {
      FilterSlice(transactions, filter == "all", OfType(filter), limit)
    }
  }

  function OfType(filter: string): Transaction -> bool {
    (tx: Transaction) => TypeName(tx.txType) == filter
  }

  /** The cash account (`class Account`), reduced to its balance. */
  class Account {
    var balance: real

    constructor (balance: real)
      ensures this.balance == balance
    {
      this.balance := balance;
    }
  }

  datatype TradeError = InvalidAmount | InsufficientFunds | AssetNotFound | BelowMinimum | AboveMaximum | InsufficientAssets

  datatype BuyReceipt = BuyReceipt(cryptoAmount: real, fee: real, totalCost: real)
  datatype SellReceipt = SellReceipt(usdValue: real, fee: real, netUsdValue: real)

  /** `class BalanceManager` with the account, portfolio and transaction list it uses. */
  class BalanceManager {
    const account: Account
    const portfolio: Portfolio
    const ledger: TransactionManager

    constructor (account: Account, portfolio: Portfolio, ledger: TransactionManager)
      ensures this.account == account && this.portfolio == portfolio && this.ledger == ledger
    {
      this.account := account;
      this.portfolio := portfolio;
      this.ledger := ledger;
    }

    /** `deposit`: throws on a non-positive amount. */
    method Deposit(amount: real, txId: string, now: int) returns (r: Result<(), TradeError>)
      modifies account, ledger
      ensures r.Failure? <==> amount <= 0.0
      ensures r.Failure? ==> account.balance == old(account.balance) && ledger.transactions == old(ledger.transactions)
      ensures r.Success? ==> account.balance == old(account.balance) + amount &&
                             ledger.transactions == [NewTransaction(txId, DepositTx, None, amount, 1.0, 0.0, now)] + old(ledger.transactions)
    {
      if amount <= 0.0 {
        return Failure(InvalidAmount);
      }
      account.balance := account.balance + amount;
      ledger.AddTransaction(NewTransaction(txId, DepositTx, None, amount, 1.0, 0.0, now));
      return Success(());
    }

    /** `withdraw`: throws on a non-positive amount or one above the balance. */
    method Withdraw(amount: real, txId: string, now: int) returns (r: Result<(), TradeError>)
      modifies account, ledger
      ensures r == Failure(InvalidAmount) <==> amount <= 0.0
      ensures r == Failure(InsufficientFunds) <==> 0.0 < amount && amount > old(account.balance)
      ensures r.Failure? ==> account.balance == old(account.balance) && ledger.transactions == old(ledger.transactions)
      ensures r.Success? ==> account.balance == old(account.balance) - amount && account.balance >= 0.0 &&
                             ledger.transactions == [NewTransaction(txId, WithdrawTx, None, amount, 1.0, 0.0, now)] + old(ledger.transactions)
    {
      if amount <= 0.0 {
        return Failure(InvalidAmount);
      }
      if amount > account.balance {
        return Failure(InsufficientFunds);
      }
      account.balance := account.balance - amount;
      ledger.AddTransaction(NewTransaction(txId, WithdrawTx, None, amount, 1.0, 0.0, now));
      return Success(());
    }

    /** `buyAsset`: spend `usdAmount` plus a 0.25 % fee on asset `assetId`. */
    method BuyAsset(assetId: string, usdAmount: real, market: map<string, real>, txId: string, now: int)
      returns (r: Result<BuyReceipt, TradeError>)
      requires portfolio.Valid()
      requires forall id :: id in market ==> market[id] > 0.0
      modifies account, portfolio, ledger
      ensures portfolio.Valid()
      ensures r == Failure(AssetNotFound) <==> assetId !in market
      ensures r == Failure(BelowMinimum) <==> assetId in market && usdAmount < MinTradeAmount
      ensures r == Failure(AboveMaximum) <==> assetId in market && usdAmount > MaxTradeAmount
      ensures r == Failure(InsufficientFunds) <==>
                assetId in market && MinTradeAmount <= usdAmount <= MaxTradeAmount && 1.0025 * usdAmount > old(account.balance)
      ensures r.Failure? ==> account.balance == old(account.balance) && ledger.transactions == old(ledger.transactions) &&
                             portfolio.assets == old(portfolio.assets)
      ensures r.Success? ==>
                var price := market[assetId];
                r.value == BuyReceipt(0.9975 * usdAmount / price, Commission(usdAmount), 1.0025 * usdAmount) &&
                account.balance == old(account.balance) - 1.0025 * usdAmount &&
                portfolio.assets == Set(old(portfolio.assets), assetId,
                                        Buy(Get(old(portfolio.assets), assetId).GetOr(EmptyHolding), r.value.cryptoAmount, price)) &&
                portfolio.TotalsAt(market) &&
                ledger.transactions == [NewTransaction(txId, BuyTx, Some(assetId), r.value.cryptoAmount, price, r.value.fee, now)]
                                       + old(ledger.transactions)
    {
      if assetId !in market {
        return Failure(AssetNotFound);
      }
      var price := market[assetId];
      if usdAmount < MinTradeAmount {
        return Failure(BelowMinimum);
      }
      if usdAmount > MaxTradeAmount {
        return Failure(AboveMaximum);
      }
      var fee := usdAmount * CommissionRate;
      var totalCost := usdAmount + fee;
      if totalCost > account.balance {
        return Failure(InsufficientFunds);
      }
      var cryptoAmount := (usdAmount - fee) / price;
      account.balance := account.balance - totalCost;
      portfolio.AddAsset(assetId, cryptoAmount, price, market);
      ledger.AddTransaction(NewTransaction(txId, BuyTx, Some(assetId), cryptoAmount, price, fee, now));
      return Success(BuyReceipt(cryptoAmount, fee, totalCost));
    }

    /** `sellAsset`: sell `cryptoAmount` units of a held asset for its value
        less a 0.25 % fee. */
    method SellAsset(assetId: string, cryptoAmount: real, market: map<string, real>, txId: string, now: int)
      returns (r: Result<SellReceipt, TradeError>)
      requires portfolio.Valid()
      modifies account, portfolio, ledger
      ensures portfolio.Valid()
      ensures r == Failure(AssetNotFound) <==> assetId !in market
      ensures r == Failure(InsufficientAssets) <==>
                assetId in market &&
                (Get(old(portfolio.assets), assetId).None? || Get(old(portfolio.assets), assetId).value.balance < cryptoAmount)
      ensures r.Failure? ==> account.balance == old(account.balance) && ledger.transactions == old(ledger.transactions) &&
                             portfolio.assets == old(portfolio.assets)
      ensures r.Success? ==>
                var price := market[assetId];
                var h := Get(old(portfolio.assets), assetId).value;
                r.value == SaleOf(cryptoAmount, price) &&
                account.balance == old(account.balance) + r.value.netUsdValue &&
                portfolio.assets == (if h.balance - cryptoAmount <= 0.0 then Delete(old(portfolio.assets), assetId)
                                     else Set(old(portfolio.assets), assetId, Sell(h, cryptoAmount))) &&
                portfolio.TotalsAt(market) &&
                ledger.transactions == [NewTransaction(txId, SellTx, Some(assetId), cryptoAmount, price, r.value.fee, now)]
                                       + old(ledger.transactions)
    {
      if assetId !in market {
        return Failure(AssetNotFound);
      }
      var price := market[assetId];
      var portfolioAsset := Get(portfolio.assets, assetId);
      if portfolioAsset.None? || portfolioAsset.value.balance < cryptoAmount {
        return Failure(InsufficientAssets);
      }
      var sale := SaleOf(cryptoAmount, price);
      SettleSell(assetId, cryptoAmount, price, sale, market, txId, now);
      return Success(sale);
    }

    /** The accepted sale: the holding is reduced, the net value credited and
        the transaction recorded. */
    method SettleSell(assetId: string, cryptoAmount: real, price: real, sale: SellReceipt,
                      market: map<string, real>, txId: string, now: int)
      requires portfolio.Valid()
      requires Get(portfolio.assets, assetId).Some? && Get(portfolio.assets, assetId).value.balance >= cryptoAmount
      modifies account, portfolio, ledger
      ensures portfolio.Valid()
      ensures account.balance == old(account.balance) + sale.netUsdValue
      ensures var h := Get(old(portfolio.assets), assetId).value;
              portfolio.assets == (if h.balance - cryptoAmount <= 0.0 then Delete(old(portfolio.assets), assetId)
                                   else Set(old(portfolio.assets), assetId, Sell(h, cryptoAmount)))
      ensures portfolio.TotalsAt(market)
      ensures ledger.transactions == [NewTransaction(txId, SellTx, Some(assetId), cryptoAmount, price, sale.fee, now)]
                                     + old(ledger.transactions)
    {
      var removed := portfolio.RemoveAsset(assetId, cryptoAmount, market);
      account.balance := account.balance + sale.netUsdValue;
      ledger.AddTransaction(NewTransaction(txId, SellTx, Some(assetId), cryptoAmount, price, sale.fee, now));
    }

    /** `getTotalBalance`: cash plus the portfolio's market value. */
    function TotalBalance(): (r: real)
      reads account, portfolio
      ensures r - account.balance == portfolio.totalValue
    {
      account.balance + portfolio.totalValue
    }
  }

  /** Once the totals are brought up to date at `market`, as every trade
      and `updateTotalValue` leave them, `getTotalBalance` is the cash plus
      the market value of the holdings, and never less than the cash. */
  lemma TotalBalanceAtMarket(m: BalanceManager, market: map<string, real>)
    requires m.portfolio.Valid() && m.portfolio.TotalsAt(market) && Positive(market)
    ensures m.TotalBalance() == m.account.balance + PricedValue(m.portfolio.assets, market)
    ensures m.TotalBalance() >= m.account.balance
  {
    PricedValueNonNegative(m.portfolio.assets, market);
  }

  function Commission(usd: real): real {
    usd * CommissionRate
  }

  /** What `sellAsset` pays for `amount` units at `price`: the value, the
      0.25 % fee on it, and the rest, which is 99.75 % of the value. */
  function SaleOf(amount: real, price: real): (r: SellReceipt)
    ensures r.usdValue == amount * price
    ensures r.fee == Commission(r.usdValue) && r.usdValue - r.fee == r.netUsdValue
    ensures r.netUsdValue == 0.9975 * r.usdValue
  {
    var usdValue := amount * price;
    var fee := usdValue * CommissionRate;
    SellReceipt(usdValue, fee, usdValue - fee)
  }
}
