/** The cash-and-portfolio ledger of `render-deploy/public/birja/ro2rpj/balance.js`.
    It works on the current account of the account store, whose portfolio is
    a JavaScript object of weighted-average holdings, and prices assets from
    a fixed table. The transaction list it keeps in local storage under
    `userTransactions` is a field here. */
module BalanceLedger {
  import opened Wrappers
  import opened Seqs
  import opened Holdings
  import opened Accounts

  const CommissionRate: real := 0.0025

  /** The totals `updatePortfolioValue` writes, over the assets with a price. */
  function Revalued(p: PortfolioRecord, prices: map<string, real>): (r: PortfolioRecord)
    ensures r.assets == p.assets
    ensures r.totalValue == PricedValue(p.assets, prices)
    ensures r.totalInvested == PricedInvested(p.assets, prices)
    ensures r.totalProfit == r.totalValue - r.totalInvested
    ensures r.profitPercent == ProfitPercent(r.totalValue, r.totalInvested)
  {
    var value := PricedValue(p.assets, prices);
    var invested := PricedInvested(p.assets, prices);
    PortfolioRecord(value, invested, value - invested, ProfitPercent(value, invested), p.assets)
  }

  /** The holdings after `addAssetToPortfolio`. */
  function Bought(assets: Book, assetId: string, amount: real, price: real): (r: Book)
    requires amount > 0.0 && PositiveBalances(assets)
    ensures Get(r, assetId) == Some(Buy(Get(assets, assetId).GetOr(EmptyHolding), amount, price))
    ensures forall k :: k != assetId ==> Get(r, k) == Get(assets, k)
  {
    var h := Get(assets, assetId).GetOr(EmptyHolding);
    Set(assets, assetId, Buy(h, amount, price))
  }

  /** The holdings after a successful `removeAssetFromPortfolio`. */
  function Sold(assets: Book, assetId: string, amount: real): (r: Book)
    requires Get(assets, assetId).Some?
    ensures Get(assets, assetId).value.balance - amount <= 0.0 ==> Get(r, assetId).None?
    ensures Get(assets, assetId).value.balance - amount > 0.0 ==>
              Get(r, assetId) == Some(Sell(Get(assets, assetId).value, amount))
    ensures forall k :: k != assetId ==> Get(r, k) == Get(assets, k)
  {
    var h := Sell(Get(assets, assetId).value, amount);
    if h.balance <= 0.0 then Delete(assets, assetId) else Set(assets, assetId, h)
  }

  /** The account after `addAssetToPortfolio`: holdings updated, then revalued. */
  function WithBought(a: AccountRecord, assetId: string, amount: real, price: real, prices: map<string, real>): (r: AccountRecord)
    requires amount > 0.0 && PositiveBalances(a.portfolio.assets)
    ensures r.balance == a.balance && r.portfolio.assets == Bought(a.portfolio.assets, assetId, amount, price)
  {
    a.(portfolio := Revalued(a.portfolio.(assets := Bought(a.portfolio.assets, assetId, amount, price)), prices))
  }

  /** The account after a successful `removeAssetFromPortfolio`. */
  function WithSold(a: AccountRecord, assetId: string, amount: real, prices: map<string, real>): (r: AccountRecord)
    requires Get(a.portfolio.assets, assetId).Some?
    ensures r.balance == a.balance && r.portfolio.assets == Sold(a.portfolio.assets, assetId, amount)
  {
    a.(portfolio := Revalued(a.portfolio.(assets := Sold(a.portfolio.assets, assetId, amount)), prices))
  }

  /** The account's totals are those `updatePortfolioValue` writes at `prices`. */
  ghost predicate ValuedAt(a: AccountRecord, prices: map<string, real>) {
    a.portfolio == Revalued(a.portfolio, prices)
  }

  /** Every trade leaves the totals valued at the ledger's prices. */
  lemma TradesRevalue(a: AccountRecord, assetId: string, amount: real, prices: map<string, real>)
    requires assetId in prices && prices[assetId] > 0.0
    ensures amount >= 1.0 && PositiveBalances(a.portfolio.assets) ==> ValuedAt(AfterBuy(a, assetId, amount, prices), prices)
    ensures Get(a.portfolio.assets, assetId).Some? ==> ValuedAt(AfterSell(a, assetId, amount, prices), prices)
  {
  }

  /** Both transitions keep one positive-balance entry per asset. */
  lemma HoldingsStayWellFormed(assets: Book, assetId: string, amount: real, price: real)
    requires UniqueKeys(assets) && PositiveBalances(assets)
    ensures amount > 0.0 ==> UniqueKeys(Bought(assets, assetId, amount, price)) &&
                             PositiveBalances(Bought(assets, assetId, amount, price))
    ensures Get(assets, assetId).Some? ==> UniqueKeys(Sold(assets, assetId, amount)) &&
                                           PositiveBalances(Sold(assets, assetId, amount))
  {
    if amount > 0.0 {
      SetUnique(assets, assetId, Buy(Get(assets, assetId).GetOr(EmptyHolding), amount, price));
    }
    if Get(assets, assetId).Some? {
      var h := Sell(Get(assets, assetId).value, amount);
      SetUnique(assets, assetId, h);
      DeleteUnique(assets, assetId);
    }
  }

  /** A purchase leaves the average price between the old average and the
      purchase price, and never changes another asset's holding. */
  lemma BoughtAverage(assets: Book, assetId: string, amount: real, price: real)
    requires PositiveBalances(assets) && amount > 0.0
    requires forall e :: e in assets ==> Consistent(e.1)
    ensures var old_ := Get(assets, assetId).GetOr(EmptyHolding);
            var new_ := Get(Bought(assets, assetId, amount, price), assetId).value;
            new_.balance == old_.balance + amount &&
            (old_.averagePrice <= price ==> old_.averagePrice <= new_.averagePrice <= price) &&
            (price <= old_.averagePrice ==> price <= new_.averagePrice <= old_.averagePrice)
    ensures forall k :: k != assetId ==> Get(Bought(assets, assetId, amount, price), k) == Get(assets, k)
  {
    var h := Get(assets, assetId).GetOr(EmptyHolding);
    if Get(assets, assetId).Some? {
      assert (assetId, h) in assets;
    }
    BuyAverageBetween(h, amount, price);
  }

  /** The account after a purchase that passed `buyAsset`'s checks: cash is
      debited first, then the coins bought with what is left after the
      commission are added and the portfolio revalued. */
  function AfterBuy(a: AccountRecord, assetId: string, usdAmount: real, prices: map<string, real>): (r: AccountRecord)
    requires assetId in prices && prices[assetId] > 0.0 && usdAmount >= 1.0 && PositiveBalances(a.portfolio.assets)
    ensures r.balance == a.balance - 1.0025 * usdAmount
    ensures Get(r.portfolio.assets, assetId).Some?
    ensures Get(r.portfolio.assets, assetId).value.balance ==
            Get(a.portfolio.assets, assetId).GetOr(EmptyHolding).balance + PurchaseOf(usdAmount, prices[assetId], 0.0).cryptoAmount
    ensures forall k :: k != assetId ==> Get(r.portfolio.assets, k) == Get(a.portfolio.assets, k)
  {
    var purchase := PurchaseOf(usdAmount, prices[assetId], 0.0);
    PurchasedCoins(usdAmount, prices[assetId], 0.0);
    var paid := a.(balance := a.balance - purchase.totalCost);
    WithBought(paid, assetId, purchase.cryptoAmount, prices[assetId], prices)
  }

  /** The account after a sale that passed `sellAsset`'s checks: the holding
      shrinks (or goes), the portfolio is revalued, then the proceeds less
      the commission are credited. */
  function AfterSell(a: AccountRecord, assetId: string, cryptoAmount: real, prices: map<string, real>): (r: AccountRecord)
    requires assetId in prices && prices[assetId] > 0.0 && Get(a.portfolio.assets, assetId).Some?
    ensures r.balance == a.balance + 0.9975 * (cryptoAmount * prices[assetId])
    ensures Get(a.portfolio.assets, assetId).value.balance - cryptoAmount <= 0.0 ==> Get(r.portfolio.assets, assetId).None?
    ensures Get(a.portfolio.assets, assetId).value.balance - cryptoAmount > 0.0 ==>
              Get(r.portfolio.assets, assetId) == Some(Sell(Get(a.portfolio.assets, assetId).value, cryptoAmount))
    ensures forall k :: k != assetId ==> Get(r.portfolio.assets, k) == Get(a.portfolio.assets, k)
  {
    var sold := WithSold(a, assetId, cryptoAmount, prices);
    sold.(balance := sold.balance + SaleOf(cryptoAmount, prices[assetId], 0.0).netUsdValue)
  }

  /** `checkLimits`: the bounds for the four known kinds of operation. */
  datatype LimitCheck = LimitCheck(valid: bool, bounds: Option<(real, real)>)

  function Limits(kind: string): (r: Option<(real, real)>)
    ensures r.Some? <==> kind in {"deposit", "withdraw", "buy", "sell"}
  {
    if kind == "deposit" then Some((1.0, 1000000.0))
    else if kind == "withdraw" then Some((10.0, 100000.0))
    else if kind == "buy" then Some((1.0, 1000000.0))
    else if kind == "sell" then Some((0.00000001, 1000000.0))
    else None
  }

  function CheckLimits(amount: real, kind: string): (r: LimitCheck)
    ensures r.valid <==> kind !in {"deposit", "withdraw", "buy", "sell"} ||
                         Limits(kind).value.0 <= amount <= Limits(kind).value.1
    ensures r.bounds == Limits(kind)
  {
    match Limits(kind)
    case None => LimitCheck(true, None)
    case Some((min, max)) => LimitCheck(min <= amount <= max, Some((min, max)))
  }

  /** The deposit limit is the range `deposit` enforces, and a purchase that
      passes `buyAsset`'s own range check passes `checkLimits` too. */
  lemma LimitsAgreeWithOperations(amount: real)
    ensures CheckLimits(amount, "deposit").valid ==> 0.0 < amount <= 1000000.0
    ensures CheckLimits(amount, "buy").valid <==> 1.0 <= amount <= 1000000.0
    ensures CheckLimits(amount, "sell").valid ==> amount > 0.0
  {
  }

  /** A stored transaction (`createTransaction`); `totalValue` is
      `amount * price`. */
  datatype LedgerTx = LedgerTx(id: string, txType: string, assetId: Option<string>, amount: real, price: real,
                               fee: real, totalValue: real, payMethod: Option<string>, timestamp: int)

  function NewTx(id: string, txType: string, assetId: Option<string>, amount: real, price: real, fee: real,
                 payMethod: Option<string>, now: int): LedgerTx
  {
    LedgerTx(id, txType, assetId, amount, price, fee, amount * price, payMethod, now)
  }

  datatype BalanceError = InvalidAmount | AboveMaximum | BelowMinimum | NoAccount | AssetNotFound
                        | InsufficientFunds | InsufficientAssets

  datatype BuyReceipt = BuyReceipt(cryptoAmount: real, commission: real, totalCost: real, newBalance: real)
  /** The receipt of a purchase of `usdAmount` dollars at `price`: the
      coins bought with what is left after the commission, the commission,
      and the total debited, which includes the commission. */
  function PurchaseOf(usdAmount: real, price: real, newBalance: real): (r: BuyReceipt)
    requires price > 0.0
    ensures r.commission == usdAmount * CommissionRate && r.totalCost == usdAmount + r.commission
    ensures r.totalCost == 1.0025 * usdAmount
    ensures r.newBalance == newBalance
  {
    var commission := usdAmount * CommissionRate;
    BuyReceipt((usdAmount - commission) / price, commission, usdAmount + commission, newBalance)
  }

  /** The coins of a purchase are worth, at the purchase price, what is
      left of the amount after the commission: 99.75 % of it. */
  lemma PurchasedCoins(usdAmount: real, price: real, newBalance: real)
    requires price > 0.0
    ensures var r := PurchaseOf(usdAmount, price, newBalance);
            r.cryptoAmount * price == usdAmount - r.commission &&
            r.cryptoAmount == 0.9975 * usdAmount / price &&
            (usdAmount > 0.0 ==> r.cryptoAmount > 0.0)
  {
    var r := PurchaseOf(usdAmount, price, newBalance);
    assert usdAmount - r.commission == 0.9975 * usdAmount;
  }

  datatype SellReceipt = SellReceipt(usdValue: real, commission: real, netUsdValue: real, newBalance: real)

  /** The receipt of a sale of `cryptoAmount` units at `price`: their value,
      the commission on it, and the value less the commission. */
  function SaleOf(cryptoAmount: real, price: real, newBalance: real): (r: SellReceipt)
    ensures r.usdValue == cryptoAmount * price
    ensures r.commission == r.usdValue * CommissionRate && r.netUsdValue == r.usdValue - r.commission
    ensures r.netUsdValue == 0.9975 * r.usdValue
    ensures r.newBalance == newBalance
  {
    var usdValue := cryptoAmount * price;
    SellReceipt(usdValue, usdValue * CommissionRate, usdValue - usdValue * CommissionRate, newBalance)
  }

  /** Selling a positive amount at a positive price always costs a positive
      commission. */
  lemma SaleCharges(cryptoAmount: real, price: real, newBalance: real)
    requires cryptoAmount > 0.0 && price > 0.0
    ensures SaleOf(cryptoAmount, price, newBalance).commission > 0.0
  {
    assert cryptoAmount * price > 0.0;
  }

  /** The error `deposit` throws, in the order of its checks, or None when
      the deposit goes through. */
  function DepositRefusal(a: Option<AccountRecord>, amount: real): Option<BalanceError> {
    if amount <= 0.0 then Some(InvalidAmount)
    else if amount > 1000000.0 then Some(AboveMaximum)
    else if a.None? then Some(NoAccount)
    else None
  }

  /** The error `withdraw` throws, or None. */
  function WithdrawRefusal(a: Option<AccountRecord>, amount: real): Option<BalanceError> {
    if amount <= 0.0 then Some(InvalidAmount)
    else if a.None? then Some(NoAccount)
    else if a.value.balance < amount then Some(InsufficientFunds)
    else None
  }

  /** The error `buyAsset` throws, or None. */
  function BuyRefusal(a: Option<AccountRecord>, prices: map<string, real>, assetId: string, usdAmount: real): Option<BalanceError> {
    if usdAmount < 1.0 then Some(BelowMinimum)
    else if usdAmount > 1000000.0 then Some(AboveMaximum)
    else if a.None? then Some(NoAccount)
    else if assetId !in prices then Some(AssetNotFound)
    else if a.value.balance < 1.0025 * usdAmount then Some(InsufficientFunds)
    else None
  }

  /** The error `sellAsset` throws, or None. */
  function SellRefusal(a: Option<AccountRecord>, prices: map<string, real>, assetId: string, cryptoAmount: real): Option<BalanceError> {
    if cryptoAmount <= 0.0 then Some(InvalidAmount)
    else if a.None? then Some(NoAccount)
    else if Get(a.value.portfolio.assets, assetId).None? || Get(a.value.portfolio.assets, assetId).value.balance < cryptoAmount
    then Some(InsufficientAssets)
    else if assetId !in prices then Some(AssetNotFound)
    else None
  }

  /** `class BalanceManager`. */
  class BalanceManager {
    const accounts: AccountManager
    /** `getAssetPrice`'s table. */
    const prices: map<string, real>
    /** Newest first. */
    var transactions: seq<LedgerTx>

    constructor (accounts: AccountManager, saved: seq<LedgerTx>)
      ensures this.accounts == accounts && transactions == saved
      ensures prices == AssetPrices && Positive(prices)
    {
      this.accounts := accounts;
      prices := AssetPrices;
      transactions := saved;
      AssetPricesPositive();
    }


    /** `getCurrentBalance`: 0 without an account. */
    function CurrentBalance(): (r: real)
      reads accounts
      ensures r == accounts.GetBalance()
    {
      if accounts.currentAccount.Some? then accounts.currentAccount.value.balance else 0.0
    }

    /** `getTotalBalance`: cash plus portfolio value, 0 without an account. */
    function TotalBalance(): (r: real)
      reads accounts
      ensures accounts.currentAccount.None? ==> r == 0.0
      ensures accounts.currentAccount.Some? ==>
                r - accounts.currentAccount.value.balance == accounts.currentAccount.value.portfolio.totalValue
    {
      if accounts.currentAccount.None? then 0.0
      else accounts.currentAccount.value.balance + accounts.currentAccount.value.portfolio.totalValue
    }

    /** With the totals valued at the ledger's prices, as every trade leaves
        them, `getTotalBalance` is the cash plus the market value of the
        holdings, and never less than the cash. */
    lemma TotalBalanceAtPrices()
      requires accounts.Valid() && Positive(prices)
      requires accounts.currentAccount.Some? && ValuedAt(accounts.currentAccount.value, prices)
      ensures var a := accounts.currentAccount.value;
              TotalBalance() == a.balance + PricedValue(a.portfolio.assets, prices) && TotalBalance() >= a.balance
    {
      PricedValueNonNegative(accounts.currentAccount.value.portfolio.assets, prices);
    }

    /** `getTransactionHistory(limit)`. */
    function TransactionHistory(limit: int): (r: seq<LedgerTx>)
      reads this
      ensures limit >= 0 ==> |r| == if limit < |transactions| then limit else |transactions|
      ensures |r| <= |transactions| && r == transactions[..|r|]
    {
      SliceTo(transactions, limit)
    }

    /** `createTransaction`: the new transaction goes first. */
    method CreateTransaction(id: string, txType: string, assetId: Option<string>, amount: real, price: real,
                             fee: real, payMethod: Option<string>, now: int) returns (tx: LedgerTx)
      modifies this
      ensures tx == NewTx(id, txType, assetId, amount, price, fee, payMethod, now)
      ensures transactions == [tx] + old(transactions)
    {
      tx := NewTx(id, txType, assetId, amount, price, fee, payMethod, now);
      transactions := [tx] + transactions;
    }

    /** `updatePortfolioValue`: recomputes the current account's totals. */
    method UpdatePortfolioValue()
      requires accounts.Valid()
      modifies accounts
      ensures accounts.Valid()
      ensures old(accounts.currentAccount).None? ==> accounts.currentAccount == old(accounts.currentAccount) &&
                                                     accounts.stored == old(accounts.stored)
      ensures old(accounts.currentAccount).Some? ==>
                var a := old(accounts.currentAccount).value;
                accounts.currentAccount == Some(a.(portfolio := Revalued(a.portfolio, prices))) &&
                accounts.stored == accounts.currentAccount
      ensures accounts.isAuthenticated == old(accounts.isAuthenticated)
    {
      if accounts.currentAccount.None? {
        return;
      }
      var account := accounts.currentAccount.value;
      var value, invested := Totals(account.portfolio.assets, prices);
      var profit := value - invested;
      var portfolio := PortfolioRecord(value, invested, profit,
                                       if invested > 0.0 then profit / invested * 100.0 else 0.0,
                                       account.portfolio.assets);
      assert portfolio == Revalued(account.portfolio, prices);
      account := account.(portfolio := portfolio);
      accounts.currentAccount := Some(account);
      accounts.SaveAccount(account);
    }

    /** `addAssetToPortfolio`: false without an account. */
    method AddAssetToPortfolio(assetId: string, amount: real, price: real) returns (ok: bool)
      requires accounts.Valid() && amount > 0.0
      modifies accounts
      ensures accounts.Valid()
      ensures ok <==> old(accounts.currentAccount).Some?
      ensures !ok ==> accounts.currentAccount == old(accounts.currentAccount) && accounts.stored == old(accounts.stored)
      ensures ok ==>
                var a := old(accounts.currentAccount).value;
                accounts.currentAccount == Some(WithBought(a, assetId, amount, price, prices)) &&
                accounts.stored == accounts.currentAccount
      ensures accounts.isAuthenticated == old(accounts.isAuthenticated)
    {
      if accounts.currentAccount.None? {
        return false;
      }
      var account := accounts.currentAccount.value;
      var asset := Get(account.portfolio.assets, assetId).GetOr(EmptyHolding);
      HoldingsStayWellFormed(account.portfolio.assets, assetId, amount, price);
      var assets := Set(account.portfolio.assets, assetId, Buy(asset, amount, price));
      account := account.(portfolio := account.portfolio.(assets := assets));
      accounts.currentAccount := Some(account);
      UpdatePortfolioValue();
      accounts.SaveAccount(accounts.currentAccount.value);
      return true;
    }

    /** `removeAssetFromPortfolio`: false without an account or with a
        missing or too small holding. */
    method RemoveAssetFromPortfolio(assetId: string, amount: real) returns (ok: bool)
      requires accounts.Valid()
      modifies accounts
      ensures accounts.Valid()
      ensures ok <==> old(accounts.currentAccount).Some? &&
                      Get(old(accounts.currentAccount).value.portfolio.assets, assetId).Some? &&
                      Get(old(accounts.currentAccount).value.portfolio.assets, assetId).value.balance >= amount
      ensures !ok ==> accounts.currentAccount == old(accounts.currentAccount) && accounts.stored == old(accounts.stored)
      ensures ok ==>
                var a := old(accounts.currentAccount).value;
                accounts.currentAccount == Some(WithSold(a, assetId, amount, prices)) &&
                accounts.stored == accounts.currentAccount
      ensures accounts.isAuthenticated == old(accounts.isAuthenticated)
    {
      if accounts.currentAccount.None? {
        return false;
      }
      var account := accounts.currentAccount.value;
      var entry := Get(account.portfolio.assets, assetId);
      if entry.None? || entry.value.balance < amount {
        return false;
      }
      HoldingsStayWellFormed(account.portfolio.assets, assetId, amount, 0.0);
      var assets := Sold(account.portfolio.assets, assetId, amount);
      account := account.(portfolio := account.portfolio.(assets := assets));
      accounts.currentAccount := Some(account);
      UpdatePortfolioValue();
      accounts.SaveAccount(accounts.currentAccount.value);
      return true;
    }

    /** `deposit`: at most $1,000,000 at a time, into the current account. */
    method Deposit(amount: real, payMethod: string, txId: string, now: int) returns (r: Result<real, BalanceError>)
      requires accounts.Valid()
      modifies this, accounts
      ensures accounts.Valid()
      ensures accounts.isAuthenticated == old(accounts.isAuthenticated)
      ensures r == Failure(InvalidAmount) <==> amount <= 0.0
      ensures r == Failure(AboveMaximum) <==> amount > 1000000.0
      ensures r == Failure(NoAccount) <==> 0.0 < amount <= 1000000.0 && old(accounts.currentAccount).None?
      ensures r.Success? <==> DepositRefusal(old(accounts.currentAccount), amount).None?
      ensures r.Failure? ==> r.error == DepositRefusal(old(accounts.currentAccount), amount).value
      ensures r.Failure? ==>
                accounts.currentAccount == old(accounts.currentAccount) && accounts.stored == old(accounts.stored) &&
                transactions == old(transactions)
      ensures r.Success? ==>
                var a := old(accounts.currentAccount).value;
                accounts.currentAccount == Some(a.(balance := a.balance + amount)) && r.value == a.balance + amount &&
                accounts.stored == accounts.currentAccount &&
                transactions == [NewTx(txId, "deposit", None, amount, 1.0, 0.0, Some(payMethod), now)] + old(transactions)
    {
      if amount <= 0.0 {
        return Failure(InvalidAmount);
      }
      if amount > 1000000.0 {
        return Failure(AboveMaximum);
      }
      if accounts.currentAccount.None? {
        return Failure(NoAccount);
      }
      var account := accounts.currentAccount.value;
      account := account.(balance := account.balance + amount);
      accounts.currentAccount := Some(account);
      accounts.SaveAccount(account);
      var _ := CreateTransaction(txId, "deposit", None, amount, 1.0, 0.0, Some(payMethod), now);
      return Success(account.balance);
    }

    /** `withdraw`: never below zero. */
    method Withdraw(amount: real, payMethod: string, txId: string, now: int) returns (r: Result<real, BalanceError>)
      requires accounts.Valid()
      modifies this, accounts
      ensures accounts.Valid()
      ensures accounts.isAuthenticated == old(accounts.isAuthenticated)
      ensures r == Failure(InvalidAmount) <==> amount <= 0.0
      ensures r == Failure(NoAccount) <==> amount > 0.0 && old(accounts.currentAccount).None?
      ensures r == Failure(InsufficientFunds) <==>
                amount > 0.0 && old(accounts.currentAccount).Some? && old(accounts.currentAccount).value.balance < amount
      ensures r.Success? <==> WithdrawRefusal(old(accounts.currentAccount), amount).None?
      ensures r.Failure? ==> r.error == WithdrawRefusal(old(accounts.currentAccount), amount).value
      ensures r.Failure? ==>
                accounts.currentAccount == old(accounts.currentAccount) && accounts.stored == old(accounts.stored) &&
                transactions == old(transactions)
      ensures r.Success? ==>
                var a := old(accounts.currentAccount).value;
                accounts.currentAccount == Some(a.(balance := a.balance - amount)) && r.value == a.balance - amount &&
                r.value >= 0.0 && accounts.stored == accounts.currentAccount &&
                transactions == [NewTx(txId, "withdraw", None, amount, 1.0, 0.0, Some(payMethod), now)] + old(transactions)
    {
      if amount <= 0.0 {
        return Failure(InvalidAmount);
      }
      if accounts.currentAccount.None? {
        return Failure(NoAccount);
      }
      var account := accounts.currentAccount.value;
      if account.balance < amount {
        return Failure(InsufficientFunds);
      }
      account := account.(balance := account.balance - amount);
      accounts.currentAccount := Some(account);
      accounts.SaveAccount(account);
      var _ := CreateTransaction(txId, "withdraw", None, amount, 1.0, 0.0, Some(payMethod), now);
      return Success(account.balance);
    }

    /** `buyAsset`: spends `usdAmount` plus the 0.25 % commission. */
    method BuyAsset(assetId: string, usdAmount: real, txId: string, now: int) returns (r: Result<BuyReceipt, BalanceError>)
      requires accounts.Valid() && Positive(prices)
      modifies this, accounts
      ensures accounts.Valid()
      ensures accounts.isAuthenticated == old(accounts.isAuthenticated)
      ensures r == Failure(BelowMinimum) <==> usdAmount < 1.0
      ensures r == Failure(AboveMaximum) <==> usdAmount > 1000000.0
      ensures r == Failure(NoAccount) <==> 1.0 <= usdAmount <= 1000000.0 && old(accounts.currentAccount).None?
      ensures r == Failure(AssetNotFound) <==>
                1.0 <= usdAmount <= 1000000.0 && old(accounts.currentAccount).Some? && assetId !in prices
      ensures r == Failure(InsufficientFunds) <==>
                1.0 <= usdAmount <= 1000000.0 && old(accounts.currentAccount).Some? && assetId in prices &&
                old(accounts.currentAccount).value.balance < 1.0025 * usdAmount
      ensures r.Success? <==> BuyRefusal(old(accounts.currentAccount), prices, assetId, usdAmount).None?
      ensures r.Failure? ==> r.error == BuyRefusal(old(accounts.currentAccount), prices, assetId, usdAmount).value
      ensures r.Failure? ==>
                accounts.currentAccount == old(accounts.currentAccount) && accounts.stored == old(accounts.stored) &&
                transactions == old(transactions)
      ensures r.Success? ==>
                var a := old(accounts.currentAccount).value;
                var b := AfterBuy(a, assetId, usdAmount, prices);
                assetId in prices && 1.0 <= usdAmount &&
                r.value == PurchaseOf(usdAmount, prices[assetId], b.balance) &&
                accounts.currentAccount == Some(b) && accounts.stored == accounts.currentAccount &&
                transactions == [NewTx(txId, "buy", Some(assetId), r.value.cryptoAmount, prices[assetId],
                                       r.value.commission, None, now)] + old(transactions)
    {
      if usdAmount < 1.0 {
        return Failure(BelowMinimum);
      }
      if usdAmount > 1000000.0 {
        return Failure(AboveMaximum);
      }
      if accounts.currentAccount.None? {
        return Failure(NoAccount);
      }
      if assetId !in prices {
        return Failure(AssetNotFound);
      }
      if accounts.currentAccount.value.balance < usdAmount + usdAmount * CommissionRate {
        return Failure(InsufficientFunds);
      }
      r := SettleBuy(assetId, usdAmount, prices[assetId], txId, now);
    }

    /** The part of `buyAsset` after its checks have passed. */
    method SettleBuy(assetId: string, usdAmount: real, price: real, txId: string, now: int)
      returns (r: Result<BuyReceipt, BalanceError>)
      requires accounts.Valid() && accounts.currentAccount.Some?
      requires assetId in prices && price == prices[assetId] && price > 0.0 && usdAmount >= 1.0
      modifies this, accounts
      ensures accounts.Valid()
      ensures accounts.isAuthenticated == old(accounts.isAuthenticated)
      ensures var b := AfterBuy(old(accounts.currentAccount).value, assetId, usdAmount, prices);
              r == Success(PurchaseOf(usdAmount, price, b.balance)) &&
              accounts.currentAccount == Some(b) && accounts.stored == accounts.currentAccount &&
              transactions == [NewTx(txId, "buy", Some(assetId), r.value.cryptoAmount, price, r.value.commission, None, now)]
                              + old(transactions)
    {
      var purchase := PurchaseOf(usdAmount, price, 0.0);
      PurchasedCoins(usdAmount, price, 0.0);
      var account := accounts.currentAccount.value;
      ghost var after := AfterBuy(account, assetId, usdAmount, prices);
      account := account.(balance := account.balance - purchase.totalCost);
      accounts.currentAccount := Some(account);
      accounts.SaveAccount(account);
      var _ := AddAssetToPortfolio(assetId, purchase.cryptoAmount, price);
      assert accounts.currentAccount == Some(after);
      var _ := CreateTransaction(txId, "buy", Some(assetId), purchase.cryptoAmount, price, purchase.commission, None, now);
      return Success(PurchaseOf(usdAmount, price, accounts.currentAccount.value.balance));
    }

    /** `sellAsset`: credits the value of `cryptoAmount` units less the 0.25 %
        commission. */
    method SellAsset(assetId: string, cryptoAmount: real, txId: string, now: int) returns (r: Result<SellReceipt, BalanceError>)
      requires accounts.Valid() && Positive(prices)
      modifies this, accounts
      ensures accounts.Valid()
      ensures accounts.isAuthenticated == old(accounts.isAuthenticated)
      ensures r == Failure(InvalidAmount) <==> cryptoAmount <= 0.0
      ensures r == Failure(NoAccount) <==> cryptoAmount > 0.0 && old(accounts.currentAccount).None?
      ensures r == Failure(InsufficientAssets) <==>
                cryptoAmount > 0.0 && old(accounts.currentAccount).Some? &&
                var h := Get(old(accounts.currentAccount).value.portfolio.assets, assetId);
                h.None? || h.value.balance < cryptoAmount
      ensures r == Failure(AssetNotFound) ==> assetId !in prices
      ensures r.Success? <==> SellRefusal(old(accounts.currentAccount), prices, assetId, cryptoAmount).None?
      ensures r.Failure? ==> r.error == SellRefusal(old(accounts.currentAccount), prices, assetId, cryptoAmount).value
      ensures r.Failure? ==>
                accounts.currentAccount == old(accounts.currentAccount) && accounts.stored == old(accounts.stored) &&
                transactions == old(transactions)
      ensures r.Success? ==>
                var a := old(accounts.currentAccount).value;
                assetId in prices && Get(a.portfolio.assets, assetId).Some? &&
                var b := AfterSell(a, assetId, cryptoAmount, prices);
                r.value == SaleOf(cryptoAmount, prices[assetId], b.balance) && r.value.commission > 0.0 &&
                accounts.currentAccount == Some(b) && accounts.stored == accounts.currentAccount &&
                transactions == [NewTx(txId, "sell", Some(assetId), cryptoAmount, prices[assetId], r.value.commission, None, now)]
                                + old(transactions)
    {
      if cryptoAmount <= 0.0 {
        return Failure(InvalidAmount);
      }
      if accounts.currentAccount.None? {
        return Failure(NoAccount);
      }
      var assetInPortfolio := Get(accounts.currentAccount.value.portfolio.assets, assetId);
      if assetInPortfolio.None? || assetInPortfolio.value.balance < cryptoAmount {
        return Failure(InsufficientAssets);
      }
      if assetId !in prices {
        return Failure(AssetNotFound);
      }
      var price := prices[assetId];
      r := SettleSell(assetId, cryptoAmount, price, txId, now);
      SaleCharges(cryptoAmount, price, r.value.newBalance);
    }

    /** `account.balance += amount` on the current account, then
        `saveAccount`. */
    method Credit(amount: real)
      requires accounts.Valid() && accounts.currentAccount.Some?
      modifies accounts
      ensures accounts.Valid()
      ensures accounts.isAuthenticated == old(accounts.isAuthenticated)
      ensures var a := old(accounts.currentAccount).value;
              accounts.currentAccount == Some(a.(balance := a.balance + amount)) && accounts.stored == accounts.currentAccount
    {
      var account := accounts.currentAccount.value;
      account := account.(balance := account.balance + amount);
      accounts.currentAccount := Some(account);
      accounts.SaveAccount(account);
    }

    /** The part of `sellAsset` after its checks have passed and the sums
        are computed. */
    method SettleSell(assetId: string, cryptoAmount: real, price: real, txId: string, now: int)
      returns (r: Result<SellReceipt, BalanceError>)
      requires accounts.Valid() && accounts.currentAccount.Some?
      requires assetId in prices && price == prices[assetId] && price > 0.0
      requires Get(accounts.currentAccount.value.portfolio.assets, assetId).Some?
      requires Get(accounts.currentAccount.value.portfolio.assets, assetId).value.balance >= cryptoAmount
      modifies this, accounts
      ensures accounts.Valid()
      ensures accounts.isAuthenticated == old(accounts.isAuthenticated)
      ensures accounts.currentAccount == Some(AfterSell(old(accounts.currentAccount).value, assetId, cryptoAmount, prices))
      ensures accounts.stored == accounts.currentAccount
      ensures r == Success(SaleOf(cryptoAmount, price, accounts.currentAccount.value.balance))
      ensures transactions == [NewTx(txId, "sell", Some(assetId), cryptoAmount, price, r.value.commission, None, now)]
                              + old(transactions)
    {
      ghost var after := AfterSell(accounts.currentAccount.value, assetId, cryptoAmount, prices);
      var removed := RemoveAssetFromPortfolio(assetId, cryptoAmount);
      Credit(SaleOf(cryptoAmount, price, 0.0).netUsdValue);
      assert accounts.currentAccount == Some(after);
      r := Success(SaleOf(cryptoAmount, price, accounts.currentAccount.value.balance));
      var _ := CreateTransaction(txId, "sell", Some(assetId), cryptoAmount, price, r.value.commission, None, now);
    }
  }
}
