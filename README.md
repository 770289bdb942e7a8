# SellTrade bookkeeping core in Dafny

SellTrade is a demonstration crypto-currency exchange: an Express server
with a SQLite store, and several browser-side scripts that keep an
account, a portfolio and logs in local storage. This project models the
parts of it that keep the books, and proves what they promise:

- **the administrator's price simulation** (`render-deploy/server.js`):
  a coin's price rises or falls linearly to a target, snaps to it, then
  falls back over 30 minutes towards the market price, after which the
  simulation is removed. The periodic market refresh leaves simulated
  coins alone. Modelled by `PriceSimulation` (simulation.dfy): the two
  global maps become an `Engine` class with a map of simulations and a
  set of coins that have a timer.
- **the trading ledger**, in its four variants:
  - the server's buy and sell routes with `updateUserPortfolio` and
    `calculateCurrentPortfolioValues` (`ServerLedger`, exchange.dfy);
  - the browser's `Asset`, `Portfolio`, `TransactionManager` and
    `BalanceManager` classes of `public/birja/ro2rpj/script.js`
    (`ClientLedger`, client_ledger.dfy);
  - `BalanceManager` of `balance.js` (`BalanceLedger`, balance.dfy);
  - `PortfolioManager` of `portfolio.js` (`PortfolioManagement`,
    portfolio.dfy).

  All four share a 0.25 % commission and weighted-average-cost holdings,
  and they delete a holding once its balance is no longer positive. The
  keyed-object arithmetic they share is in `Holdings` (holdings.dfy).
- **the record managers**:
  - `AccountManager` (`Accounts`, account.dfy), with `btoa` as its
    password hash (`Base64`, base64.dfy);
  - `OperationsManager` (`Operations`, operations.dfy);
  - `HistoryManager` (`TradeHistory`, history.dfy);
  - `EarningsManager` (`Earnings`, earnings.dfy).
- **small selection and validation rules**:
  - the coin table's filter, page slice and page window (`CoinTable`,
    coins.dfy);
  - the migration runner (`Migrations`, migrations.dfy);
  - backup retention (`Backups`, backup.dfy);
  - the registration form checks (`Registration`, registration.dfy).

Shared helpers:
- `Wrappers`: Option and Result.
- `Text`: ASCII case mapping and `includes`.
- `Seqs`: order-preserving filter, slices, a stable descending sort, sums
  and counters.

Money is `real`, timestamps are integers in milliseconds, and a
JavaScript object that is iterated in insertion order is an association
list with distinct keys. Wherever the source updates state in place, the
model does too: classes whose methods name what they modify. A loop in
the source is a `while` loop with invariants, proved against a
specification function.

Several things are parameters:
- the clock and random identifiers;
- the market price the simulation fetches;
- the success of each file-system or database call the model keeps (copies, unlinks, reading the backup directory and file status, migrations' SQL);
- the calendar day of a timestamp.

## Model

| member | source | states |
|---|---|---|
| PriceSimulation.NewSimulation | render-deploy/server.js:249-277 | a new simulation starts rising and active from the coin's current price at `now`; its rate times the duration is exactly the price change to the target, and it ends `duration` minutes later |
| PriceSimulation.PercentChange | render-deploy/server.js:386 | the history row's percentage is defined exactly when the start price is not 0, and then it is 100 × (price − start) / start |
| PriceSimulation.TickOutcome | render-deploy/server.js:306-371 | a tick finishes the simulation exactly when it is falling and 30 minutes have passed since the fall began; otherwise it only changes the phase, a falling simulation is left unchanged, and it never moves back from falling to rising |
| PriceSimulation.UpdateCoin | render-deploy/database.js:513-530 | an UPDATE writes the price of a known coin, leaves every other coin as it was and adds no coin |
| PriceSimulation.StopRows | render-deploy/server.js:427-441 | stopping writes at most one history row, and writes one exactly when the reference price is positive |
| PriceSimulation.ReachesTargetAtEndTime | render-deploy/server.js:321-342 | when the target differs from the start price, the sign-aware check on the rising price fires exactly when the clock has reached the simulation's end time |
| PriceSimulation.ZeroRateNeverFalls | render-deploy/server.js:333-334 | with a zero rate the rising price stays at the start price and the falling phase never begins |
| PriceSimulation.SnapsToTarget | render-deploy/server.js:333-340 | once the target is reached the written price is exactly the target, and the fall starts now from the target |
| PriceSimulation.RisingStaysShortOfTarget | render-deploy/server.js:321-342 | before the target is reached the rising price has not passed it, in the direction of the rate |
| PriceSimulation.RisingMonotone | render-deploy/server.js:323 | the rising price moves monotonically in the direction of the rate as time passes |
| PriceSimulation.FallingPriceBetween | render-deploy/server.js:361-364 | during the 30 falling minutes the price lies between the fall's start price and the reference price |
| PriceSimulation.FailedFetchFallsTowardZero | render-deploy/server.js:398-413 | a failed fetch reads as 0, so a falling tick still writes a price, between 0 and the fall's start price |
| PriceSimulation.FallingIsFinal | render-deploy/server.js:343-371 | a falling simulation keeps its phase, fall start time and fall start price on every tick that writes a price |
| PriceSimulation.RefreshSkipsSimulated | render-deploy/server.js:135-166 | the periodic refresh never saves a price for a coin under simulation and writes no history row for it |
| PriceSimulation.RefreshSavesUnsimulated | render-deploy/server.js:132-163 | a quoted coin that is not under simulation ends with the price of its last quote |
| PriceSimulation.Engine.constructor | render-deploy/server.js:27-28 | the engine starts with no simulation and no timer |
| PriceSimulation.Engine.Stop | render-deploy/server.js:415-448 | stopping always removes the timer and the simulation entry, writes the reference price only when it is positive, and keeps every simulation paired with exactly one timer |
| PriceSimulation.Engine.Tick | render-deploy/server.js:302-396 | a tick for a coin with no active simulation changes nothing; otherwise it writes the price and history row, or stops the simulation, as the tick outcome says |
| PriceSimulation.Engine.StartSimulation | render-deploy/server.js:236-300 | fails and changes nothing for an unknown coin; otherwise it stores the coin's simulation, registers its timer and runs the first tick |
| PriceSimulation.Engine.StartRoute | render-deploy/server.js:1294-1363 | succeeds exactly when target > 0, 0 < minutes ≤ 10080, the coin exists and has no simulation; a refused start leaves every simulation, timer, price and row untouched; a successful one answers the old price, registers the timer, and stores, writes and records exactly what `StartSimulation`'s first tick of `NewSimulation` gives, leaving the other coins' simulations as they were |
| PriceSimulation.Engine.StopRoute | render-deploy/server.js:1366-1402 | fails exactly when the coin has no simulation, changing nothing; otherwise it stops the simulation |
| PriceSimulation.Engine.Status | render-deploy/server.js:1405-1447 | reports a simulation exactly when the coin has one, with its phase, start and target prices |
| PriceSimulation.Engine.RefreshPrices | render-deploy/server.js:118-179 | the market refresh saves every quoted coin and its history row, skipping coins under simulation, and touches no simulation or timer |
| ServerLedger.DefaultBalance | render-deploy/server.js:1837-1845 | an account created on first trade holds 10000 USD |
| ServerLedger.FindCoin | render-deploy/database.js:497-511 | the lookup finds a coin with that id when the table has one, and reports none only when no coin has it |
| ServerLedger.SymbolPricesLastWins | render-deploy/server.js:2360-2364 | every coin's upper-case symbol is in the price map, with the price of the last coin that has that symbol |
| ServerLedger.ApplyBuy | render-deploy/server.js:1850-1861 | a buy debits USD by exactly 1.0025 × the amount and credits the coin with 0.9975 × amount / price; the credited coins are worth exactly the amount minus commission; no other balance changes |
| ServerLedger.ApplySell | render-deploy/server.js:1971-1985 | a sale credits USD with 0.9975 × amount × price and lowers the coin's balance by the amount sold; no other balance changes |
| ServerLedger.AdjustHoldings | render-deploy/server.js:2306-2353 | a buy adds the amount and its cost to the holding, keeping average = invested / amount; a sale of a held symbol realises (price − average) × amount, keeps the average and removes the entry at ≤ 0; selling an unheld symbol changes nothing; other symbols are untouched and balances stay positive |
| ServerLedger.Repriced | render-deploy/server.js:2355-2377 | value and investment are totalled over the holdings whose symbol has a coin, profit % is 0 when nothing is invested, and the realised profit is kept |
| ServerLedger.PortfolioAfterTrade | render-deploy/server.js:2286-2386 | the saved portfolio is the adjusted holdings, the realised profit added to the total, and the totals recomputed at the coin prices |
| ServerLedger.BoughtHoldings | render-deploy/server.js:2306-2326 | the bought amount is merged into the symbol's holding (created empty when absent), other symbols are untouched and balances stay positive |
| ServerLedger.SoldHoldings | render-deploy/server.js:2327-2353 | selling an unheld symbol changes nothing and earns nothing; otherwise the profit is (price − average) × amount and the holding shrinks, or goes once the amount reaches the balance; other symbols are untouched |
| ServerLedger.TradePortfolio | render-deploy/server.js:2306-2377 | the in-place portfolio update yields exactly `PortfolioAfterTrade` and keeps the portfolio well formed |
| ServerLedger.BuyRecord | render-deploy/server.js:1856-1888 | the buy record charges 0.25 % of the dollars spent and its coins are worth, at the coin price, the other 99.75 % |
| ServerLedger.SellRecord | render-deploy/server.js:1979-2003 | the sell record values the coins at the coin price and charges 0.25 % of that value |
| ServerLedger.BuyKeepsAverageBetween | render-deploy/server.js:2316-2325 | a purchase moves a holding's average price towards the purchase price and never past it |
| ServerLedger.AdjustKeepsUniqueKeys | render-deploy/server.js:2306-2353 | a trade keeps the portfolio's symbols distinct |
| ServerLedger.TradeHoldings | render-deploy/server.js:2306-2353 | the in-place update of `portfolio.assets` leaves the holdings and realised profit the specification of a trade gives |
| ServerLedger.Exchange.EnsureAccount | render-deploy/server.js:1833-1849 | a missing account is created with the default balance; an existing one is kept |
| ServerLedger.Exchange.UpdateUserPortfolio | render-deploy/server.js:2286-2386 | does nothing for an unknown asset; otherwise it saves the portfolio after the trade, creating an empty one first, and touches no account or transaction |
| ServerLedger.Exchange.AccountOf | render-deploy/server.js:1833-1849 | every account, existing or default, has a USD balance |
| ServerLedger.Exchange.BuyRoute | render-deploy/server.js:1817-1897 | refuses bad parameters, an unknown asset, or USD below 1.0025 × amount; a refusal leaves the state as it was, except that the default account is kept; success debits and credits as a buy does, appends the transaction, and leaves the user's portfolio as `PortfolioAfterTrade` of the old one with the bought amount at the coin's price |
| ServerLedger.Exchange.SettleBuy | render-deploy/server.js:1858-1883 | the accepted buy's balances and transaction record, and the portfolio as `PortfolioAfterTrade` of the old one with the bought amount |
| ServerLedger.Exchange.SellRoute | render-deploy/server.js:1934-2026 | refuses bad parameters, an unknown asset, or a held amount below the request; a refusal changes no balance, portfolio or transaction; success credits as a sale does and leaves the portfolio as `PortfolioAfterTrade` of the old one with the sold amount |
| ServerLedger.Exchange.SettleSell | render-deploy/server.js:1979-2010 | the accepted sale's balances and transaction record, and the portfolio as `PortfolioAfterTrade` of the old one with the sold amount |
| ServerLedger.Valuation | render-deploy/server.js:2254-2270 | a holding is valued exactly when its symbol has a coin; profit is value − invested, and profit % is 0 with nothing invested and otherwise has the sign of the profit |
| ServerLedger.CurrentPortfolioValues | render-deploy/server.js:2241-2283 | keeps the holdings, totals value and investment over priced symbols, sets profit to value − invested, and values each holding as `Valuation` says |
| ClientLedger.ChangePercent | public/birja/ro2rpj/script.js:72-82 | 0 when the old price is not positive; otherwise 100 × change / old, positive exactly when the price rose and negative exactly when it fell |
| ClientLedger.Asset.constructor | public/birja/ro2rpj/script.js:56-70 | a new asset's 24-hour high and low are its price |
| ClientLedger.Asset.UpdatePrice | public/birja/ro2rpj/script.js:72-82 | records change = new − old and its percentage; the 24-hour high never decreases, the low never increases, and the range keeps containing the price |
| ClientLedger.Portfolio.constructor | public/birja/ro2rpj/script.js:97-104 | a new portfolio is empty with zero totals |
| ClientLedger.Portfolio.UpdateTotalValue | public/birja/ro2rpj/script.js:146-162 | the totals are over the holdings the market prices, profit = value − invested, and profit % is 0 with nothing invested |
| ClientLedger.Portfolio.AddAsset | public/birja/ro2rpj/script.js:106-127 | merges the purchase into the holding, created empty if absent: balance + amount, invested + amount × price, average = invested / balance |
| ClientLedger.Portfolio.RemoveAsset | public/birja/ro2rpj/script.js:129-144 | false, changing nothing, for a missing or too small holding; otherwise it lowers the balance, rescales the investment to the average, and deletes the entry at ≤ 0 |
| ClientLedger.TypeCount | public/birja/ro2rpj/script.js:267-284 | a type's count is at most the number of transactions |
| ClientLedger.TypeCountsSum | public/birja/ro2rpj/script.js:267-284 | the four per-type counts add up to the number of transactions |
| ClientLedger.Stats | public/birja/ro2rpj/script.js:267-284 | the count, the summed value, and an average that times the count gives the sum (0 for none) |
| ClientLedger.TransactionManager.constructor | public/birja/ro2rpj/script.js:246-249 | starts with no transactions |
| ClientLedger.TransactionManager.AddTransaction | public/birja/ro2rpj/script.js:251-255 | the new transaction goes first and the rest are kept in order |
| ClientLedger.TransactionManager.GetTransactions | public/birja/ro2rpj/script.js:257-265 | exactly the first `limit` (or all, if fewer) of the transactions of the requested type, or of all types for `all`, in stored order |
| ClientLedger.Account.constructor | public/birja/ro2rpj/script.js:14-28 | the account holds the given balance |
| ClientLedger.BalanceManager.constructor | public/birja/ro2rpj/script.js:319-322 | the manager works on the given account, portfolio and transaction list |
| ClientLedger.BalanceManager.Deposit | public/birja/ro2rpj/script.js:324-334 | refuses exactly a non-positive amount, changing nothing; otherwise the balance rises by the amount and a deposit is recorded first |
| ClientLedger.BalanceManager.Withdraw | public/birja/ro2rpj/script.js:336-347 | refuses a non-positive amount or one above the balance, changing nothing; otherwise the balance drops by exactly the amount and stays non-negative |
| ClientLedger.BalanceManager.BuyAsset | public/birja/ro2rpj/script.js:349-386 | refuses an unknown asset, an amount outside [1, 1000000], or a balance below 1.0025 × amount; otherwise debits exactly that total and adds 0.9975 × amount / price to the holding |
| ClientLedger.BalanceManager.SellAsset | public/birja/ro2rpj/script.js:388-417 | refuses an unknown asset or a missing or too small holding; otherwise credits value − 0.25 % and lowers the holding |
| ClientLedger.SaleOf | public/birja/ro2rpj/script.js:397-399 | a sale is worth amount × price, pays a 0.25 % fee on it, and nets 0.9975 × that value |
| ClientLedger.BalanceManager.SettleSell | public/birja/ro2rpj/script.js:401-410 | the accepted sale reduces or removes the holding, credits the net, keeps the totals at market prices and records the transaction first |
| ClientLedger.BalanceManager.TotalBalance | public/birja/ro2rpj/script.js:419-421 | the total balance exceeds the cash by exactly the portfolio's stored total value |
| ClientLedger.TotalBalanceAtMarket | public/birja/ro2rpj/script.js:419-421 | once the totals are up to date at the market prices, the total balance is the cash plus the market value of the holdings, and never less than the cash |
| Holdings.Buy | render-deploy/public/birja/ro2rpj/balance.js:207-215 | a purchase adds the amount to the balance and its cost to the investment, and the average stays investment / balance |
| Holdings.Sell | render-deploy/public/birja/ro2rpj/balance.js:230-231 | a sale lowers the balance, keeps the average, and rescales the investment to it |
| Holdings.BuyAverageBetween | render-deploy/public/birja/ro2rpj/balance.js:207-215 | the new average is the amount-weighted mean of the old average and the price, so it lies between them |
| Holdings.AssetPricesPositive | render-deploy/public/birja/ro2rpj/balance.js:268-284 | every price in the fixed price table is positive |
| Holdings.ProfitPercent | render-deploy/public/birja/ro2rpj/balance.js:262 | 0 with nothing invested; otherwise 100 × (value − invested) / invested, positive exactly when value exceeds the investment |
| Holdings.Totals | render-deploy/public/birja/ro2rpj/balance.js:247-257 | the loop totals value and investment over exactly the holdings that have a price |
| Holdings.UnpricedSetKeepsTotals | render-deploy/public/birja/ro2rpj/balance.js:250-257 | changing a holding that has no price leaves both totals unchanged |
| Holdings.PricedTotalsNonNegative | render-deploy/public/birja/ro2rpj/balance.js:247-257 | with non-negative holdings and prices both totals are non-negative |
| Holdings.PricedValueNonNegative | render-deploy/public/birja/ro2rpj/balance.js:243-257 | with positive balances and prices the market value of the holdings is non-negative |
| BalanceLedger.Revalued | render-deploy/public/birja/ro2rpj/balance.js:243-265 | totals over priced holdings only, profit = value − invested, profit % 0 with nothing invested, holdings kept |
| BalanceLedger.Bought | render-deploy/public/birja/ro2rpj/balance.js:194-220 | the asset's holding becomes the purchase merged into it (created empty if absent); no other holding changes |
| BalanceLedger.Sold | render-deploy/public/birja/ro2rpj/balance.js:223-240 | the holding is reduced, or deleted when nothing positive remains; no other holding changes |
| BalanceLedger.WithBought | render-deploy/public/birja/ro2rpj/balance.js:194-220 | adding to the portfolio leaves the cash balance as it was |
| BalanceLedger.WithSold | render-deploy/public/birja/ro2rpj/balance.js:223-240 | removing from the portfolio leaves the cash balance as it was |
| BalanceLedger.HoldingsStayWellFormed | render-deploy/public/birja/ro2rpj/balance.js:194-240 | buying and selling keep one entry per asset and every balance positive |
| BalanceLedger.BoughtAverage | render-deploy/public/birja/ro2rpj/balance.js:207-215 | after a purchase the holding's balance has grown by the amount and its average lies between the old average and the price |
| BalanceLedger.PurchaseOf | render-deploy/public/birja/ro2rpj/balance.js:115-122 | the commission is 0.25 % of the amount and the total debited is 1.0025 × the amount |
| BalanceLedger.PurchasedCoins | render-deploy/public/birja/ro2rpj/balance.js:115-122 | the coins bought are worth, at the purchase price, exactly 99.75 % of the amount, and a positive amount buys a positive quantity |
| BalanceLedger.AfterBuy | render-deploy/public/birja/ro2rpj/balance.js:95-142 | a buy debits exactly 1.0025 × amount, adds the coins of `PurchaseOf` to that holding and leaves every other holding as it was |
| BalanceLedger.AfterSell | render-deploy/public/birja/ro2rpj/balance.js:145-191 | a sale credits 0.9975 × amount × price, the net of `SaleOf`, and reduces or deletes the holding, leaving every other holding as it was |
| BalanceLedger.SaleOf | render-deploy/public/birja/ro2rpj/balance.js:169-171 | the value is amount × price, the commission 0.25 % of it, and the net the value less the commission, 0.9975 × the value |
| BalanceLedger.SaleCharges | render-deploy/public/birja/ro2rpj/balance.js:169-170 | selling a positive amount at a positive price always charges a positive commission |
| BalanceLedger.Limits | render-deploy/public/birja/ro2rpj/balance.js:374-390 | limits exist exactly for deposit, withdraw, buy and sell |
| BalanceLedger.CheckLimits | render-deploy/public/birja/ro2rpj/balance.js:374-390 | valid exactly when min ≤ amount ≤ max for a known type, and always valid for an unknown type |
| BalanceLedger.LimitsAgreeWithOperations | render-deploy/public/birja/ro2rpj/balance.js:374-390 | the limit table accepts only what the deposit, buy and sell methods accept: deposits in (0, 1000000], buys in [1, 1000000], positive sales |
| BalanceLedger.BalanceManager.constructor | render-deploy/public/birja/ro2rpj/balance.js:3-7 | the manager uses the fixed, positive price table |
| BalanceLedger.BalanceManager.CurrentBalance | render-deploy/public/birja/ro2rpj/balance.js:10-13 | the account's cash balance, 0 without an account |
| BalanceLedger.BalanceManager.TotalBalance | render-deploy/public/birja/ro2rpj/balance.js:16-22 | 0 without an account; otherwise it exceeds the cash by exactly the portfolio's stored total value |
| BalanceLedger.BalanceManager.TotalBalanceAtPrices | render-deploy/public/birja/ro2rpj/balance.js:16-22 | with the totals valued at the ledger's prices, the total balance is the cash plus the market value of the holdings, and never less than the cash |
| BalanceLedger.TradesRevalue | render-deploy/public/birja/ro2rpj/balance.js:206-257 | every purchase and sale leaves the portfolio totals valued at the ledger's prices |
| BalanceLedger.BalanceManager.TransactionHistory | render-deploy/public/birja/ro2rpj/balance.js:310-313 | exactly the first `limit` transactions, or all if there are fewer, newest first |
| BalanceLedger.BalanceManager.CreateTransaction | render-deploy/public/birja/ro2rpj/balance.js:287-307 | the new transaction goes first |
| BalanceLedger.BalanceManager.UpdatePortfolioValue | render-deploy/public/birja/ro2rpj/balance.js:243-265 | revalues the current account's portfolio and saves it; nothing happens without an account |
| BalanceLedger.BalanceManager.AddAssetToPortfolio | render-deploy/public/birja/ro2rpj/balance.js:194-220 | false without an account; otherwise merges the purchase, revalues and saves |
| BalanceLedger.BalanceManager.RemoveAssetFromPortfolio | render-deploy/public/birja/ro2rpj/balance.js:223-240 | false, changing nothing, without an account or with a missing or too small holding; otherwise reduces or deletes it, revalues and saves |
| BalanceLedger.BalanceManager.Deposit | render-deploy/public/birja/ro2rpj/balance.js:37-63 | refuses an amount ≤ 0, above 1000000, or without an account, changing neither the current nor the saved account nor the transactions, with the error `DepositRefusal` names in the source's check order; otherwise the balance rises by the amount, the account is saved and a transaction is recorded; the login flag is kept |
| BalanceLedger.BalanceManager.Withdraw | render-deploy/public/birja/ro2rpj/balance.js:66-92 | refuses an amount ≤ 0, no account, or a balance below the amount, changing neither the current nor the saved account nor the transactions, with the error `WithdrawRefusal` names; otherwise subtracts exactly the amount, saves the account and records the transaction; the login flag is kept |
| BalanceLedger.BalanceManager.BuyAsset | render-deploy/public/birja/ro2rpj/balance.js:95-142 | refuses an amount outside [1, 1000000], no account, an unknown asset, or a balance below 1.0025 × amount, with the error `BuyRefusal` names, changing neither the current nor the saved account nor the transactions; otherwise the account is as `AfterBuy` says, saved, and the transaction recorded first; the login flag is kept |
| BalanceLedger.BalanceManager.SettleBuy | render-deploy/public/birja/ro2rpj/balance.js:120-141 | the accepted buy's account (`AfterBuy`), saved, its `PurchaseOf` receipt and its transaction first in the list; the login flag is kept |
| BalanceLedger.BalanceManager.SellAsset | render-deploy/public/birja/ro2rpj/balance.js:145-191 | refuses an amount ≤ 0, no account, or a holding below the amount, changing neither the current nor the saved account nor the transactions, with the error `SellRefusal` names; otherwise the account is as `AfterSell` says, the receipt is `SaleOf` with a positive commission, and the transaction is recorded first; the login flag is kept |
| BalanceLedger.BalanceManager.Credit | render-deploy/public/birja/ro2rpj/balance.js:176-177 | the cash balance rises by the amount and the account is saved; the login flag is kept |
| BalanceLedger.BalanceManager.SettleSell | render-deploy/public/birja/ro2rpj/balance.js:170-190 | the accepted sale's account (`AfterSell`), saved, its `SaleOf` receipt and its transaction first in the list; the login flag is kept |
| PortfolioManagement.CurrentPrice | public/birja/ro2rpj/portfolio.js:94-108 | the listed price, 0 for an unknown id |
| PortfolioManagement.HoldingProfit | public/birja/ro2rpj/portfolio.js:111-118 | profit plus investment is the holding's value at the price; for a consistent holding the profit is balance × (price − average), so a held asset gains exactly when the price is above its average and loses exactly when below |
| PortfolioManagement.ProfitSign | public/birja/ro2rpj/portfolio.js:111-118 | a consistent holding's profit is its balance times the gap between price and average, with the sign of that gap |
| PortfolioManagement.HoldingProfitPercent | public/birja/ro2rpj/portfolio.js:121-127 | 0 with nothing invested; otherwise 100 × profit / invested, positive exactly when the profit is |
| PortfolioManagement.Views | public/birja/ro2rpj/portfolio.js:16-25 | one view per holding, in holding order |
| PortfolioManagement.TopProfitableSelects | public/birja/ro2rpj/portfolio.js:130-135 | exactly min(limit, number of gaining assets) assets, all gaining and from the views, largest profit first; no gaining asset left out earns more than one listed |
| PortfolioManagement.LosingSelects | public/birja/ro2rpj/portfolio.js:138-143 | exactly min(limit, number of losing assets) assets, all losing and from the views, largest loss first; no losing asset left out loses more than one listed |
| PortfolioManagement.TopGrowingSelects | public/birja/ro2rpj/portfolio.js:146-151 | exactly min(limit, number of rising assets) assets, all with a positive percentage, largest first; none left out rose more than one listed |
| PortfolioManagement.TopFallingSelects | public/birja/ro2rpj/portfolio.js:154-159 | exactly min(limit, number of falling assets) assets, all with a negative percentage, largest fall first; none left out fell more than one listed |
| PortfolioManagement.Shares | public/birja/ro2rpj/portfolio.js:162-174 | one share per view, its percentage of the total value, all 0 when the total is 0 |
| PortfolioManagement.SharesPercentOfTotal | public/birja/ro2rpj/portfolio.js:162-174 | every share's percentage times the total value is 100 × its value |
| PortfolioManagement.Distribution | public/birja/ro2rpj/portfolio.js:162-174 | a permutation of the shares, sorted by value descending |
| PortfolioManagement.Stats | public/birja/ro2rpj/portfolio.js:177-194 | counts of profitable and losing assets within the total, and a win rate in [0, 100] that is 0 for an empty portfolio |
| PortfolioManagement.ShareAtMostHundred | public/birja/ro2rpj/portfolio.js:187 | a part of a whole is between 0 and 100 percent of it |
| PortfolioManagement.PortfolioManager.constructor | public/birja/ro2rpj/portfolio.js:3-8 | an empty portfolio with current statistics |
| PortfolioManagement.PortfolioManager.AssetCurrentPrice | public/birja/ro2rpj/portfolio.js:94-108 | non-negative, and positive exactly for a listed asset |
| PortfolioManagement.PortfolioManager.AssetProfit | public/birja/ro2rpj/portfolio.js:111-118 | 0 for a missing asset; otherwise value at the current price minus investment |
| PortfolioManagement.PortfolioManager.AssetProfitPercent | public/birja/ro2rpj/portfolio.js:121-127 | 0 for a missing asset or one with nothing invested; otherwise 100 × profit / invested |
| PortfolioManagement.PortfolioManager.ViewsAgreeWithQueries | public/birja/ro2rpj/portfolio.js:16-25 | the asset list reports the same profit and percentage as the per-asset queries |
| PortfolioManagement.PortfolioManager.UpdatePortfolioStats | public/birja/ro2rpj/portfolio.js:73-91 | keeps the holdings and totals over assets with a non-zero price |
| PortfolioManagement.PortfolioManager.AddAsset | public/birja/ro2rpj/portfolio.js:28-51 | merges the purchase into the holding, created empty if absent, and updates the statistics |
| PortfolioManagement.PortfolioManager.RemoveAsset | public/birja/ro2rpj/portfolio.js:54-70 | refuses a missing or too small holding, changing nothing; otherwise reduces or deletes it and updates the statistics |
| Operations.History | render-deploy/public/birja/ro2rpj/operations.js:79-87 | exactly the first `limit` (or all, if fewer) operations of the requested type, or of all types for `all`, in stored order |
| Operations.Applied | render-deploy/public/birja/ro2rpj/operations.js:22-37 | a deposit or withdrawal moves only the cash, by the amount; a purchase costs 1.0025 × amount, leaves no debt and holds the asset; a sale raises the cash |
| Operations.Outcome | render-deploy/public/birja/ro2rpj/operations.js:22-37 | fails as an unknown type exactly for other types; otherwise succeeds exactly when the ledger does not refuse, failing with the ledger's error; trades report a commission, a buy a truthy one, and nothing reports a total value |
| Operations.Entry | render-deploy/public/birja/ro2rpj/balance.js:56-181 | the transaction the ledger records for an accepted operation: the coins bought and the 0.25 % commission on the dollars for a buy, the units sold at the price with 0.25 % of their value for a sale, the dollar amount at price 1 without fee for a deposit or withdrawal |
| Operations.Recorded | render-deploy/public/birja/ro2rpj/operations.js:14-49 | completed with the result exactly on success, failed with the error exactly on failure |
| Operations.DepositThenWithdraw | render-deploy/public/birja/ro2rpj/operations.js:22-37 | a deposit followed by a withdrawal of the same amount is accepted and restores the account |
| Operations.ByPeriod | render-deploy/public/birja/ro2rpj/operations.js:159-164 | exactly the operations with start ≤ timestamp ≤ end |
| Operations.ByStatus | render-deploy/public/birja/ro2rpj/operations.js:243-245 | exactly the operations with that status |
| Operations.ByAmountRange | render-deploy/public/birja/ro2rpj/operations.js:373-378 | exactly the operations with a truthy result value in [min, max] |
| Operations.ByFeeRange | render-deploy/public/birja/ro2rpj/operations.js:381-386 | exactly the operations with a truthy commission in [min, max] |
| Operations.StatsCounts | render-deploy/public/birja/ro2rpj/operations.js:90-120 | completed + failed + pending ≤ total, and the per-type counts add up to the total |
| Operations.StatsAverage | render-deploy/public/birja/ro2rpj/operations.js:90-120 | the average volume times the count is the total volume, and 0 for no operations |
| Operations.StatusCountsBound | render-deploy/public/birja/ro2rpj/operations.js:101-115 | the three status counters together never exceed the number of operations |
| Operations.OperationsManager.constructor | render-deploy/public/birja/ro2rpj/operations.js:3-7 | the manager holds the saved operations |
| Operations.OperationsManager.Execute | render-deploy/public/birja/ro2rpj/operations.js:22-37 | the result is `Outcome`: an unknown type fails touching no ledger state; a known one fails with the ledger's own refusal, leaving the current and saved account and the transactions as they were, or succeeds exactly when the ledger accepts, leaving the account as `Applied` says, saved, with the one transaction `Entry` gives put before the old ones; the login flag is kept |
| Operations.OperationsManager.CreateOperation | render-deploy/public/birja/ro2rpj/operations.js:10-52 | exactly one operation is added, at the front: the one `Recorded` makes of `Outcome`, completed with its result or failed with its error, never pending; the ledger's account, saved account and transactions change as `Execute` says (`Applied` and `Entry` on success, nothing on failure) and the error is returned |
| Operations.OperationsManager.FindOperation | render-deploy/public/birja/ro2rpj/operations.js:123-125 | the index of the first operation with that id, or none when no operation has it |
| Operations.OperationsManager.CancelOperation | render-deploy/public/birja/ro2rpj/operations.js:128-142 | fails, changing nothing, exactly when the operation is missing or not pending; a pending one is always cancelled, and only its status changes |
| Operations.OperationsManager.RetryOperation | render-deploy/public/birja/ro2rpj/operations.js:145-156 | fails, changing neither the operations nor the ledger, when the operation is missing or not failed; otherwise records the `Outcome` of running the same type and data again on the current account, with the account, saved account and transactions changed as `Execute` says (`Applied` and `Entry` on success, nothing on failure) |
| Operations.OperationsManager.OperationStats | render-deploy/public/birja/ro2rpj/operations.js:90-120 | the counting loop gives exactly the statistics of the stored operations |
| Operations.OperationsManager.CleanupOldOperations | render-deploy/public/birja/ro2rpj/operations.js:210-219 | keeps exactly the operations newer than the cutoff, in order, and returns how many were removed |
| Operations.CreatedOperationsOutsideAmountRanges | render-deploy/public/birja/ro2rpj/operations.js:373-378 | operations whose results carry no total value never match an amount range and add no volume |
| Operations.ZeroVolumes | render-deploy/public/birja/ro2rpj/operations.js:315-322 | operations without a total value sum to zero volume |
| TradeHistory.History | public/birja/ro2rpj/history.js:24-32 | exactly the first `limit` (or all, if fewer) records of the requested type, or of all types for `all`, in stored order |
| TradeHistory.ByPeriod | public/birja/ro2rpj/history.js:35-40 | exactly the records with start ≤ timestamp ≤ end, in order |
| TradeHistory.ByStatus | public/birja/ro2rpj/history.js:134-136 | exactly the records with that status |
| TradeHistory.ByAmountRange | public/birja/ro2rpj/history.js:175-180 | exactly the records with a truthy amount in [min, max] |
| TradeHistory.Largest | public/birja/ro2rpj/history.js:159-164 | at most `limit` records that have an amount, largest first |
| TradeHistory.LargestSelects | public/birja/ro2rpj/history.js:159-164 | exactly min(limit, number of records with an amount) records; no such record left out is larger than one returned |
| TradeHistory.Smallest | public/birja/ro2rpj/history.js:167-172 | at most `limit` records that have an amount, smallest first |
| TradeHistory.SmallestSelects | public/birja/ro2rpj/history.js:167-172 | exactly min(limit, number of records with an amount) records; no such record left out is smaller than one returned |
| TradeHistory.ByFeeRange | public/birja/ro2rpj/history.js:183-188 | exactly the records with a truthy fee in [min, max] |
| TradeHistory.ByAsset | public/birja/ro2rpj/history.js:113-117 | exactly the records about that asset |
| TradeHistory.Recent | public/birja/ro2rpj/history.js:309-311 | the newest `limit` records, a prefix of the history |
| TradeHistory.StatsCounts | public/birja/ro2rpj/history.js:69-101 | the per-type and per-day counters both add up to the number of records |
| TradeHistory.TopActiveDays | public/birja/ro2rpj/history.js:104-110 | at most `limit` days from the counter, busiest first |
| TradeHistory.TopActiveDaysSelects | public/birja/ro2rpj/history.js:104-110 | exactly min(limit, number of days) days; no day left out is busier than one returned |
| TradeHistory.HistoryManager.constructor | public/birja/ro2rpj/history.js:3-6 | the manager holds the saved records |
| TradeHistory.HistoryManager.AddHistoryRecord | public/birja/ro2rpj/history.js:9-21 | a completed record is put first; the rest is kept as it was |
| TradeHistory.HistoryManager.GetHistoryStats | public/birja/ro2rpj/history.js:69-101 | the counting loop gives exactly the statistics of the stored records |
| TradeHistory.HistoryManager.CleanupOldHistory | public/birja/ro2rpj/history.js:275-284 | keeps exactly the records newer than the cutoff, in order, and returns how many were removed |
| TradeHistory.HistoryManager.ClearHistory | public/birja/ro2rpj/history.js:303-306 | the history is empty |
| Earnings.AddTo | public/birja/ro2rpj/earnings.js:110-132 | adding a record to a bucket table raises its total count by one and its total amount by the amount, keeping other buckets |
| Earnings.BucketsTotals | public/birja/ro2rpj/earnings.js:110-132 | the buckets' counts add up to the number of records and their amounts to the total amount |
| Earnings.MaxAmountIsMax | public/birja/ro2rpj/earnings.js:106 | the maximum is one of the amounts and no amount exceeds it |
| Earnings.MinAmountIsMin | public/birja/ro2rpj/earnings.js:107 | the minimum is one of the amounts and no amount is below it |
| Earnings.SumBetween | public/birja/ro2rpj/earnings.js:104-105 | amounts within [lo, hi] sum to between n × lo and n × hi |
| Earnings.MeanBetween | public/birja/ro2rpj/earnings.js:105 | a sum between n × lo and n × hi has its mean in [lo, hi] |
| Earnings.StatsBounds | public/birja/ro2rpj/earnings.js:91-108 | min ≤ average ≤ max, and all three are 0 for an empty history |
| Earnings.StatsBucketTotals | public/birja/ro2rpj/earnings.js:91-135 | the by-type, by-source and by-day buckets each count every record once and add up to the total amount |
| Earnings.TopEarningTypes | public/birja/ro2rpj/earnings.js:156-162 | at most `limit` types from the by-type buckets, largest amount first |
| Earnings.TopEarningTypesSelects | public/birja/ro2rpj/earnings.js:156-162 | exactly min(limit, number of types) types; no type left out earned more than one returned |
| Earnings.ByAmountRange | public/birja/ro2rpj/earnings.js:179-183 | exactly the records with min ≤ amount ≤ max, in order |
| Earnings.ByType | public/birja/ro2rpj/earnings.js:81-83 | exactly the records of that type |
| Earnings.BySource | public/birja/ro2rpj/earnings.js:86-88 | exactly the records from that source |
| Earnings.ByDateRange | public/birja/ro2rpj/earnings.js:200-205 | exactly the records between two dates, both included; nothing when either bound is not a date |
| Earnings.PeriodEarningsAsWritten | public/birja/ro2rpj/earnings.js:42-59 | the period helpers reach the two-date query with a string and no end date, so they always return nothing |
| Earnings.ByPeriod | public/birja/ro2rpj/earnings.js:17-39 | exactly the records from the start of the named period on, in order |
| Earnings.TodayEarningsMissed | public/birja/ro2rpj/earnings.js:42-44 | a record from today is missing from today's earnings as written, and present in the corrected query |
| Earnings.EarningsManager.constructor | public/birja/ro2rpj/earnings.js:3-9 | no earnings and a zero total |
| Earnings.EarningsManager.UpdateEarningsStats | public/birja/ro2rpj/earnings.js:354-357 | the total becomes the sum of the history |
| Earnings.EarningsManager.AddEarningRecord | public/birja/ro2rpj/earnings.js:62-78 | the record goes first, the total rises by its amount, and the total stays the sum of the history |
| Earnings.EarningsManager.GetEarningsStats | public/birja/ro2rpj/earnings.js:91-135 | the counting loop gives exactly the statistics of the stored records |
| Earnings.EarningsManager.GetLargestEarnings | public/birja/ro2rpj/earnings.js:165-169 | sorts the stored history in place, largest first and as a permutation, and returns its first `limit` records |
| Earnings.EarningsManager.GetSmallestEarnings | public/birja/ro2rpj/earnings.js:172-176 | sorts the stored history in place, smallest first and as a permutation, and returns its first `limit` records |
| Earnings.EarningsManager.CleanupOldEarnings | public/birja/ro2rpj/earnings.js:341-351 | keeps exactly the records newer than the cutoff, returns the removed count, and the total is again the sum |
| Earnings.EarningsManager.ClearEarnings | public/birja/ro2rpj/earnings.js:380-387 | total 0 and an empty history |
| CoinTable.SearchIgnoresCase | public/coin.js:261-280 | a name or symbol containing the typed text in any case matches the lower-cased search |
| CoinTable.TotalPages | public/coin.js:363 | the number of pages of ten that holds n rows: 0 for none, otherwise just enough |
| CoinTable.Shown | public/coin.js:287-290 | at most ten rows, exactly the filtered rows of that page in order, none past the last page, and a full page before it |
| CoinTable.PageWindowBounds | public/coin.js:372-378 | for a page in range the window lies within [1, total], contains the page, and has five pages or all of them |
| CoinTable.StatsOf | public/coin.js:350-354 | the active coins are at most all coins |
| CoinTable.StatsAppend | public/coin.js:350-354 | the coin counts and the market-cap and volume totals add up over concatenated lists |
| CoinTable.CoinPage.constructor | public/coin.js:4-7 | no coins, on page 1 |
| CoinTable.CoinPage.LoadCoins | public/coin.js:145-146 | the loaded coins are shown unfiltered |
| CoinTable.CoinPage.ApplyFilters | public/coin.js:271-284 | exactly the coins matching search, status and category, in order, and back to page 1 |
| CoinTable.CoinPage.UpdatePagination | public/coin.js:362-387 | the previous and next buttons are disabled on the first and last page, and the page numbers are the window, containing the current page |
| CoinTable.CoinPage.ChangePage | public/coin.js:389-395 | moves to a page exactly when it is between 1 and the page count |
| Migrations.Pending | render-deploy/migrations.js:173-177 | exactly the loaded migrations whose name is not applied, in loading order |
| Migrations.RunPendingAppends | render-deploy/migrations.js:186-198 | the run appends `count` new names, each a pending migration's, to the applied names, keeping them distinct |
| Migrations.RunStopsAtFailure | render-deploy/migrations.js:186-198 | nothing at or after the first failing migration is applied |
| Migrations.AppliedAt | render-deploy/migrations.js:236 | a date exactly for an applied name, taken from its row |
| Migrations.Status | render-deploy/migrations.js:226-244 | one entry per loaded migration, applied exactly when its name is applied, and dated exactly then |
| Migrations.MigrationManager.constructor | render-deploy/migrations.js:7-10 | no loaded migrations; the applied rows as given |
| Migrations.MigrationManager.LoadMigrations | render-deploy/migrations.js:59-80 | exactly the `.js` files of the listing, in order |
| Migrations.MigrationManager.ApplyMigration | render-deploy/migrations.js:99-135 | skips an applied name without running it; records the name only when `up` succeeds |
| Migrations.MigrationManager.Migrate | render-deploy/migrations.js:171-203 | applies pending migrations in order up to the first failure, reports success with that count, and 0 with nothing pending |
| Migrations.MigrationManager.RollbackMigration | render-deploy/migrations.js:138-168 | fails for an unknown or unapplied name, changing nothing; on success the name is no longer applied |
| Migrations.MigrationManager.Rollback | render-deploy/migrations.js:206-223 | with nothing applied, success and 0; otherwise rolls back the last applied migration and reports 1 exactly on success, when the applied list loses exactly its last row |
| Migrations.DropLast | render-deploy/migrations.js:206-223 | with unique names, deleting the last applied migration's row drops exactly the last row |
| Migrations.FindByName | render-deploy/migrations.js:141 | the first migration with that name, or none when no migration has it |
| Backups.BackupFiles | backup.js:113 | exactly the files whose name has a backup prefix |
| Backups.BackupList | backup.js:152-176 | none when the directory or a file status cannot be read; otherwise the backup files, a permutation of them, newest modified first |
| Backups.ToDelete | backup.js:115-131 | nothing when there are at most ten backups; otherwise exactly count − 10 backup files |
| Backups.OldestSelected | backup.js:129-131 | the files chosen for deletion are the oldest: none is newer than any file kept |
| Backups.UnlinkStep | backup.js:133-142 | a successful unlink removes exactly that file from the directory |
| Backups.FailedUnlinkStep | backup.js:133-142 | a failed unlink leaves the directory as it was |
| Backups.BackupManager.constructor | backup.js:9-12 | the manager over the given directory and database |
| Backups.BackupManager.CleanupOldBackups | backup.js:110-149 | fails, deleting nothing, when the directory or (with more than ten backups) a file status cannot be read; otherwise deletes the selected backups, counts only successful unlinks, and deletes nothing with ten or fewer |
| Backups.BackupManager.UnlinkEach | backup.js:133-142 | the loop counts the successful unlinks and the directory loses exactly those files |
| Backups.BackupManager.CreateDatabaseBackup | backup.js:15-41 | on a successful copy a dated backup holding the database appears; on failure nothing changes |
| Backups.BackupManager.RestoreFromBackup | backup.js:90-107 | fails for a missing backup, changing nothing; otherwise backs up the current database (when that copy succeeds) and then, exactly when the restoring copy succeeds, the database is the backup's content; a failed restoring copy leaves the database as it was |
| Backups.FindFile | backup.js:93 | the index of a file with that name, or none when there is none |
| Registration.IsValidEmailMatchesRegex | render-deploy/public/script.js:327-330 | the check accepts exactly the strings local@host.tld with three non-empty runs free of `@` and whitespace |
| Registration.ValidateRegistrationData | render-deploy/public/script.js:300-325 | success exactly when all four checks pass; each error is reported exactly when its check fails |
| Registration.CheckPasswordStrength | render-deploy/public/script.js:332-359 | the score counts the five criteria, lies in 0..5, and is weak below 2, medium at 2-3, strong from 4 |
| Registration.LongPasswordsAreNotWeak | render-deploy/public/script.js:338-345 | any non-empty password scores at least 1, and one of six or more characters at least 2 |
| Registration.QueriesUsername | render-deploy/public/script.js:374 | the server is asked only about usernames of three or more characters |
| Registration.UsernameGuardsAgree | render-deploy/public/script.js:374 | the availability guard and the form check agree on which usernames are long enough |
| Accounts.RecordTrade | render-deploy/public/birja/ro2rpj/account.js:203-221 | one more trade: volume and profit grow, average × trades = volume, and the win rate stays a fraction in [0, 1] counting the profitable trades |
| Accounts.AccountManager.constructor | render-deploy/public/birja/ro2rpj/account.js:3-6 | authenticated exactly when an account was saved |
| Accounts.AccountManager.GetBalance | render-deploy/public/birja/ro2rpj/account.js:169-171 | the account's balance, 0 without an account |
| Accounts.AccountManager.SaveAccount | render-deploy/public/birja/ro2rpj/account.js:139-141 | stores the account, changing nothing else |
| Accounts.AccountManager.CreateAccount | render-deploy/public/birja/ro2rpj/account.js:9-47 | balance 0, empty portfolio, zeroed statistics, hashed password, current, saved and authenticated; fails, changing nothing, where `btoa` throws |
| Accounts.AccountManager.Login | render-deploy/public/birja/ro2rpj/account.js:50-67 | succeeds exactly when a stored account has that email and password hash; a failure changes nothing |
| Accounts.AccountManager.Logout | render-deploy/public/birja/ro2rpj/account.js:70-74 | no account, nothing stored, not authenticated |
| Accounts.AccountManager.UpdateBalance | render-deploy/public/birja/ro2rpj/account.js:160-166 | false without an account; otherwise sets the balance and saves |
| Accounts.AccountManager.AddFunds | render-deploy/public/birja/ro2rpj/account.js:174-180 | false without an account; otherwise the balance rises by the amount |
| Accounts.AccountManager.WithdrawFunds | render-deploy/public/birja/ro2rpj/account.js:183-191 | false, changing nothing, without an account or with a balance below the amount; otherwise subtracts it |
| Accounts.AccountManager.UpdateTradeStats | render-deploy/public/birja/ro2rpj/account.js:203-221 | false without an account; otherwise records the trade in the statistics |
| Accounts.AccountManager.ChangePassword | render-deploy/public/birja/ro2rpj/account.js:233-244 | succeeds exactly with an account whose hash matches the current password, and then stores the new password's hash |
| Accounts.AccountManager.DeleteAccount | render-deploy/public/birja/ro2rpj/account.js:247-263 | succeeds exactly with the right password, and then leaves no account and the state unauthenticated |
| Accounts.LoginAcceptsOnlyItsPassword | render-deploy/public/birja/ro2rpj/account.js:59 | the hash check accepts exactly the password the account was created with |
| Base64.Encode | render-deploy/public/birja/ro2rpj/account.js:134-136 | four characters for every three bytes or fewer left at the end |
| Base64.DecodeEncode | render-deploy/public/birja/ro2rpj/account.js:134-136 | decoding undoes the encoding |
| Base64.EncodeInjective | render-deploy/public/birja/ro2rpj/account.js:134-136 | different byte strings encode differently |
| Base64.Btoa | render-deploy/public/birja/ro2rpj/account.js:134-136 | defined exactly for strings of characters below 256 |
| Base64.BtoaInjective | render-deploy/public/birja/ro2rpj/account.js:134-136 | different passwords have different hashes |

## Left out

- Network and storage: HTTP, JWT and bcrypt, `fetch`, local storage, JSON persistence, SQLite, and CSV/JSON export. State is kept in memory. Results of the market fetch, the file system and the database are parameters.
- Timers and `await`: each timer tick is one method call taking `now`, and "a timer is registered" is set membership. Concurrency is not modelled.
- Floating point: amounts are `real`, with no rounding, NaN or Infinity. The client ledgers' fixed price tables hold only positive prices, so their divisions by a price are defined. The server's coin table can hold a price of 0 (a failed quote is saved as `usd || 0`); the model excludes that case by an invariant, as the next line says. A NaN history percentage for a start price of 0 is `None`.
- ServerLedger.Exchange.BuyRoute, ServerLedger.Exchange.SellRoute: `Exchange.Valid` requires every coin in the table to have a positive price, so the model leaves out trades on a coin whose saved price is 0 after a failed quote (render-deploy/server.js:142). In the source, such a buy divides by 0 (render-deploy/server.js:1866) and credits an Infinity amount of the coin, and such a sale credits nothing for the coins sold.
- Calendar helpers (`toDateString`, `setHours`, start of week or month) depend on the time zone, so the day of a timestamp (`dayOf`) and the start of today are parameters.
- Case mapping is ASCII only. JavaScript's `toLowerCase` and `toUpperCase` also map non-ASCII letters.
- PriceSimulation.Engine.StartSimulation: a second start for a coin that already has a simulation replaces its record and keeps the coin in the set of coins with timers, but does not model that the source then leaves the first timer running beside the new one; a set cannot represent two timers for one coin.
- ClientLedger.Portfolio.AddAsset, BalanceLedger.BalanceManager.AddAssetToPortfolio and PortfolioManagement.PortfolioManager.AddAsset: require a positive amount. Their only callers pass one, and a zero amount on a new holding divides by zero.
- BalanceLedger.BalanceManager.BuyAsset: the receipt has no `transactionId`, which is the clock.
- `getBalanceStats` and the daily, weekly and monthly profit estimates of `balance.js`: these are figures for display built from the clock.
- Accounts.AccountManager.DeleteAccount: the model clears the saved account. It does not model the removal of the saved portfolio, transactions and assets, which are separate storage keys.
- `updateProfile`, `updateSettings`, `getAccountStats`, `exportAccountData` and `importAccountData` of `account.js` are field copies for display.
- The account object in `account.js` is a value that each method replaces. The aliasing between `currentAccount` and objects its callers hold is not modelled.
- PortfolioManagement.Distribution: the asset names and symbols a share carries are left out (they are table lookups).
- Operations.StatsOf: a cancelled operation adds a NaN `cancelled` counter in the source. That counter is not modelled.
- Operations.OpData: every executor field is present. A missing field in the source is `undefined`, which the ledger then refuses.
- Operations: `getOperationsByAsset`, `getOperationsByUser` and `getOperationsByMethod`, the failed-by-* variants, `getPeriodStats`, `getTopAssetsByVolume`, `getLargestOperations` and `getSmallestOperations` are thin filters and sorts of the same shape as the modelled queries.
- TradeHistory: the by-user and by-method filters, the failed, successful, cancelled and pending filters, the failed-by-* variants, the by-date, by-time and interval queries, and the top assets, methods and users are left out. They are thin filters of the same shape as those modelled.
- Earnings: the by-asset, by-user, by-method and by-status filters and their failed-by-* variants, `getEarningsByDate`, the interval statistics, the top days, sources, assets, methods and users, and `getRecentEarnings` are left out. They are filters and top-N lists of the same shape as those modelled.
- Accounts.RecordTrade: states one trade at a time. It does not state the win rate over a whole sequence of trades.
- A buy followed by a sale of the same amount is not stated as a round trip. Both directions are stated separately.
- Migrations.MigrationManager.Migrate: works on the loaded list as it stands. The reload at the start of `migrate` and `getStatus` is `LoadMigrations`, called first. The listing is taken in file-name order, as `localeCompare` gives it for ASCII names.
- Migrations: the md5 checksum, the execution time and the SQL text of a migration are not modelled. Running `up` or `down` is a success parameter.
- Backups: `createFullBackup` (a `tar` archive), `logBackup` and `scheduleBackup` are file-system and timer plumbing.
- CoinTable.CoinPage.LoadCoins: keeps the current page, as the source does. The DOM rendering and the statistics display are not modelled.
- Registration: the DOM event handlers, auto-save, and the server's availability answers are not modelled.
- Registration.ValidateRegistrationData, Registration.CheckPasswordStrength and Registration.QueriesUsername: a length is the number of Unicode characters in the string. JavaScript's `.length` counts UTF-16 code units, so a character outside the Basic Multilingual Plane counts twice in the source's username and password length checks and not in the model.
- The browser's `crmcoindetal.js`, `exchange-api.js` and the database wrappers in `database.js` are not part of this model. Only `getCoinById` and `updateCoin` are used, as a lookup and an update on maps.

## Findings

| source | as written | input that shows it | evidently intended | confidence | as-written member | corrected member |
|---|---|---|---|---|---|---|
| public/birja/ro2rpj/earnings.js:42-59 | `getEarningsByPeriod` is declared twice (lines 17-39 and 200-205). The later two-date version replaces the first, so `getTodayEarnings` and the week, month and year helpers compare dates with the string `'today'` and with `undefined`. Every comparison is false and the result is always empty | any record whose timestamp is after the start of today, queried with `getTodayEarnings()` | the records from the start of the named period on | high; not executed | Earnings.PeriodEarningsAsWritten, Earnings.TodayEarningsMissed | Earnings.ByPeriod |
